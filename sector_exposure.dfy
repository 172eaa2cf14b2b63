/** The tail of `analyze_sector_exposure` in advanced_analytics.py, from the point where
    the per-sector weights are known: normalising them, the Herfindahl-Hirschman index and
    the diversification score built from it, and the comparison with approximate S&P 500
    sector weights. */
module SectorExposure {
  import opened RealMath
  import opened Tables

  /** `sectors[sector] / total_weight if total_weight > 0 else 0`. */
  function Fraction(v: real, whole: real): real
  {
    if whole > 0.0 then v / whole else 0.0
  }

  /** The sector -> weight table with every weight divided by the total weight. */
  function Normalize(sectors: Table, totalWeight: real): Table
  {
    seq(|sectors|, i requires 0 <= i < |sectors| => Entry(sectors[i].key, Fraction(sectors[i].value, totalWeight)))
  }

  /** The normalisation loop, filling `sector_weights` in the order of `sectors`. */
  method NormalizeWeights(sectors: Table) returns (weights: Table)
    ensures weights == Normalize(sectors, Sum(sectors))
  {
    var totalWeight := Sum(sectors);
    weights := [];
    var i := 0;
    while i < |sectors|
      invariant 0 <= i <= |sectors|
      invariant weights == Normalize(sectors[..i], totalWeight)
    {
      var w := if totalWeight > 0.0 then sectors[i].value / totalWeight else 0.0;
      weights := weights + [Entry(sectors[i].key, w)];
      i := i + 1;
    }
    assert sectors[..|sectors|] == sectors;
  }

  function Square(x: real): real
  {
    x * x
  }

  /** `sum(weight ** 2 for weight in sector_weights.values())`. */
  function Hhi(weights: Table): real
  {
    if weights == [] then 0.0 else Hhi(weights[..|weights| - 1]) + Square(weights[|weights| - 1].value)
  }

  /** `100 * (1 - hhi)` clamped to `[0, 100]`. */
  function DiversificationScore(weights: Table): (score: real)
    ensures 0.0 <= score <= 100.0
  {
    Max(0.0, Min(100.0, 100.0 * (1.0 - Hhi(weights))))
  }

  /** Approximate S&P 500 sector weights, the benchmark. */
  const SP500Sectors: Table := [
    Entry("Information Technology", 0.28), Entry("Health Care", 0.14), Entry("Financials", 0.11),
    Entry("Consumer Discretionary", 0.10), Entry("Communication Services", 0.09),
    Entry("Industrials", 0.08), Entry("Consumer Staples", 0.06), Entry("Energy", 0.05),
    Entry("Utilities", 0.03), Entry("Real Estate", 0.03), Entry("Materials", 0.03)]

  /** A sector recommendation. */
  datatype SectorFinding =
    | Overweight(sector: string, portfolioWeight: real, benchmarkWeight: real)
    | Underweight(sector: string, portfolioWeight: real, benchmarkWeight: real)
    | LowDiversification

  /** The comparison for one benchmark sector: flagged when the portfolio's weight (0 when it holds
      none of the sector) differs from the benchmark's by more than 0.05, overweight when above. */
  function FindingFor(weights: Table, b: Entry): (r: seq<SectorFinding>)
    ensures var pw := Get(weights, b.key, 0.0);
      && (r == [Overweight(b.key, pw, b.value)] <==> pw - b.value > 0.05)
      && (r == [Underweight(b.key, pw, b.value)] <==> pw - b.value < -0.05)
      && (r == [] <==> -0.05 <= pw - b.value <= 0.05)
  {
    var pw := Get(weights, b.key, 0.0);
    var difference := pw - b.value;
    if Abs(difference) > 0.05 then
      if difference > 0.0 then [Overweight(b.key, pw, b.value)] else [Underweight(b.key, pw, b.value)]
    else []
  }

  /** The findings of all benchmark sectors, in benchmark order. */
  function Findings(weights: Table, benchmark: Table): seq<SectorFinding>
  {
    if benchmark == [] then []
    else Findings(weights, benchmark[..|benchmark| - 1]) + FindingFor(weights, benchmark[|benchmark| - 1])
  }

  /** The benchmark loop. */
  method CompareToBenchmark(weights: Table, benchmark: Table) returns (findings: seq<SectorFinding>)
    ensures findings == Findings(weights, benchmark)
  {
    findings := [];
    var i := 0;
    while i < |benchmark|
      invariant 0 <= i <= |benchmark|
      invariant findings == Findings(weights, benchmark[..i])
    {
      var sector, benchmarkWeight := benchmark[i].key, benchmark[i].value;
      var portfolioWeight := Get(weights, sector, 0.0);
      var difference := portfolioWeight - benchmarkWeight;
      assert benchmark[..i + 1][..i] == benchmark[..i];
      if Abs(difference) > 0.05 {
        if difference > 0.0 {
          findings := findings + [Overweight(sector, portfolioWeight, benchmarkWeight)];
        } else {
          findings := findings + [Underweight(sector, portfolioWeight, benchmarkWeight)];
        }
      }
      i := i + 1;
    }
    assert benchmark[..|benchmark|] == benchmark;
  }

  /** One row of the chart: a portfolio sector, its weight and the benchmark's, in percent. */
  datatype ChartEntry = ChartEntry(sector: string, portfolioPercent: real, benchmarkPercent: real)

  function Chart(weights: Table, benchmark: Table): seq<ChartEntry>
  {
    seq(|weights|, i requires 0 <= i < |weights| =>
      ChartEntry(weights[i].key, weights[i].value * 100.0, Get(benchmark, weights[i].key, 0.0) * 100.0))
  }

  /** What the tail of the sector analysis returns. */
  datatype SectorReport = SectorReport(
    allocation: Table, diversificationScore: real, recommendations: seq<SectorFinding>, chart: seq<ChartEntry>)

  /** The tail of `analyze_sector_exposure`: normalise, score, compare with the benchmark, and
      advise diversifying when the unrounded score is below 60. The reported score is rounded to
      one decimal. */
  method SectorAnalysis(sectors: Table) returns (r: SectorReport)
    ensures r.allocation == Normalize(sectors, Sum(sectors))
    ensures r.diversificationScore == RoundTenth(DiversificationScore(r.allocation))
    ensures r.recommendations == Findings(r.allocation, SP500Sectors)
      + (if DiversificationScore(r.allocation) < 60.0 then [LowDiversification] else [])
    ensures r.chart == Chart(r.allocation, SP500Sectors)
  {
    var weights := NormalizeWeights(sectors);
    var score := DiversificationScore(weights);
    var recommendations := CompareToBenchmark(weights, SP500Sectors);
    if score < 60.0 {
      recommendations := recommendations + [LowDiversification];
    }
    r := SectorReport(weights, RoundTenth(score), recommendations, Chart(weights, SP500Sectors));
  }

  // ---------------------------------------------------------------------------
  // Properties

  lemma FractionAdd(a: real, b: real, whole: real)
    ensures Fraction(a, whole) + Fraction(b, whole) == Fraction(a + b, whole)
  {
  }

  /** The normalised weights add up to the total's fraction of itself. */
  lemma {:induction false} NormalizeSum(sectors: Table, totalWeight: real)
    ensures Sum(Normalize(sectors, totalWeight)) == Fraction(Sum(sectors), totalWeight)
  {
    if sectors != [] {
      var n := |sectors| - 1;
      assert Normalize(sectors, totalWeight)[..n] == Normalize(sectors[..n], totalWeight);
      NormalizeSum(sectors[..n], totalWeight);
      FractionAdd(Sum(sectors[..n]), sectors[n].value, totalWeight);
    }
  }

  /** Normalising keeps the sectors and their order. */
  lemma NormalizeKeepsSectors(sectors: Table, totalWeight: real)
    ensures Keys(Normalize(sectors, totalWeight)) == Keys(sectors)
  {
    var n := Normalize(sectors, totalWeight);
    assert |Keys(n)| == |Keys(sectors)|;
    forall i | 0 <= i < |sectors| ensures Keys(n)[i] == Keys(sectors)[i] {
      assert n[i].key == sectors[i].key;
    }
  }

  lemma FractionOfItself(whole: real)
    requires whole > 0.0
    ensures Fraction(whole, whole) == 1.0
  {
  }

  /** The normalised weights add up to 1 when the total weight is positive and are all 0 otherwise. */
  lemma NormalizedWeights(sectors: Table)
    ensures Sum(sectors) > 0.0 ==> Sum(Normalize(sectors, Sum(sectors))) == 1.0
    ensures Sum(sectors) <= 0.0 ==> forall i :: 0 <= i < |sectors| ==> Normalize(sectors, Sum(sectors))[i].value == 0.0
  {
    NormalizeSum(sectors, Sum(sectors));
    if Sum(sectors) > 0.0 {
      FractionOfItself(Sum(sectors));
    }
  }

  lemma {:induction false} SumNonNegative(t: Table)
    requires forall i :: 0 <= i < |t| ==> t[i].value >= 0.0
    ensures Sum(t) >= 0.0
  {
    if t != [] {
      SumNonNegative(t[..|t| - 1]);
    }
  }

  lemma SquareOfSum(a: real, b: real)
    requires a >= 0.0 && b >= 0.0
    ensures 0.0 <= Square(a) && Square(a) + Square(b) <= Square(a + b)
  {
  }

  /** For non-negative weights the index is at most the square of their sum. */
  lemma {:induction false} HhiAtMostSquaredSum(weights: Table)
    requires forall i :: 0 <= i < |weights| ==> weights[i].value >= 0.0
    ensures 0.0 <= Hhi(weights) <= Square(Sum(weights))
  {
    if weights != [] {
      var n := |weights| - 1;
      HhiAtMostSquaredSum(weights[..n]);
      SumNonNegative(weights[..n]);
      SquareOfSum(Sum(weights[..n]), weights[n].value);
    }
  }

  /** With non-negative sector weights of positive total, the normalised weights' index lies in
      `[0, 1]`, so the clamp to `[0, 100]` never changes the score `100 * (1 - hhi)`. */
  lemma ScoreNeedsNoClamp(sectors: Table)
    requires forall i :: 0 <= i < |sectors| ==> sectors[i].value >= 0.0
    requires Sum(sectors) > 0.0
    ensures var weights := Normalize(sectors, Sum(sectors));
      0.0 <= Hhi(weights) <= 1.0 && DiversificationScore(weights) == 100.0 * (1.0 - Hhi(weights))
  {
    var weights := Normalize(sectors, Sum(sectors));
    NormalizeNonNegative(sectors, Sum(sectors));
    NormalizedWeights(sectors);
    HhiAtMostSquaredSum(weights);
    assert Square(Sum(weights)) == 1.0;
  }

  lemma NormalizeNonNegative(sectors: Table, totalWeight: real)
    requires forall i :: 0 <= i < |sectors| ==> sectors[i].value >= 0.0
    ensures forall i :: 0 <= i < |sectors| ==> Normalize(sectors, totalWeight)[i].value >= 0.0
  {
    forall i | 0 <= i < |sectors| ensures Normalize(sectors, totalWeight)[i].value >= 0.0 {
      FractionNonNegative(sectors[i].value, totalWeight);
    }
  }

  lemma FractionNonNegative(v: real, whole: real)
    requires v >= 0.0
    ensures Fraction(v, whole) >= 0.0
  {
  }

  /** `f` is the finding the comparison of benchmark row `b` produces. */
  predicate ProducedBy(weights: Table, b: Entry, f: SectorFinding)
  {
    f in FindingFor(weights, b)
  }

  /** A finding is produced exactly for a benchmark sector whose comparison flags it. */
  lemma {:induction false} FindingsMembers(weights: Table, benchmark: Table, f: SectorFinding)
    ensures f in Findings(weights, benchmark) <==> exists i :: 0 <= i < |benchmark| && ProducedBy(weights, benchmark[i], f)
  {
    if benchmark != [] {
      var n := |benchmark| - 1;
      var prefix := benchmark[..n];
      assert Findings(weights, benchmark) == Findings(weights, prefix) + FindingFor(weights, benchmark[n]);
      FindingsMembers(weights, prefix, f);
      if f in Findings(weights, prefix) {
        var i :| 0 <= i < n && ProducedBy(weights, prefix[i], f);
        assert prefix[i] == benchmark[i];
        assert ProducedBy(weights, benchmark[i], f);
      } else if f in FindingFor(weights, benchmark[n]) {
        assert ProducedBy(weights, benchmark[n], f);
      }
      if exists i :: 0 <= i < |benchmark| && ProducedBy(weights, benchmark[i], f) {
        var i :| 0 <= i < |benchmark| && ProducedBy(weights, benchmark[i], f);
        if i < n {
          assert prefix[i] == benchmark[i];
          assert f in Findings(weights, prefix);
        } else {
          assert i == n;
          assert ProducedBy(weights, benchmark[n], f);
        }
      }
    }
  }

  /** The benchmark weights add up to 1. */
  lemma BenchmarkSumsToOne()
    ensures Sum(SP500Sectors) == 1.0
  {
    var t := SP500Sectors;
    assert t[..1][..0] == [];
    assert t[..2][..1] == t[..1];
    assert t[..3][..2] == t[..2];
    assert t[..4][..3] == t[..3];
    assert t[..5][..4] == t[..4];
    assert t[..6][..5] == t[..5];
    assert t[..7][..6] == t[..6];
    assert t[..8][..7] == t[..7];
    assert t[..9][..8] == t[..8];
    assert t[..10][..9] == t[..9];
    assert t[..11][..10] == t[..10];
    assert t[..11] == t;
    assert Sum(t[..1]) == 0.28;
    assert Sum(t[..2]) == 0.42;
    assert Sum(t[..3]) == 0.53;
    assert Sum(t[..4]) == 0.63;
    assert Sum(t[..5]) == 0.72;
    assert Sum(t[..6]) == 0.80;
    assert Sum(t[..7]) == 0.86;
    assert Sum(t[..8]) == 0.91;
    assert Sum(t[..9]) == 0.94;
    assert Sum(t[..10]) == 0.97;
  }
}
