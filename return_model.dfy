/** The return and volatility assumptions of advanced_analytics.py: one category -> rate
    table per risk level, chosen by looking for "Low Risk" and then "Medium Risk" inside the
    profile string, and the weighted blend of a table over a portfolio's category totals. */
module ReturnModel {
  import opened Tables
  import opened Holdings
  import opened Allocation

  /** Python's `sub in s` on strings: `sub` occurs somewhere in `s` as a contiguous slice. */
  function IsSubstring(sub: string, s: string): bool
    decreases |s|
  {
    if |sub| > |s| then false
    else if s[..|sub|] == sub then true
    else IsSubstring(sub, s[1..])
  }

  /** `sub` occurs in `s` starting at position `i`. */
  ghost predicate OccursAt(sub: string, s: string, i: int)
  {
    0 <= i && i + |sub| <= |s| && s[i..i + |sub|] == sub
  }

  /** The scan finds an occurrence exactly when there is one. */
  lemma {:induction false} IsSubstringCorrect(sub: string, s: string)
    ensures IsSubstring(sub, s) <==> exists i :: OccursAt(sub, s, i)
    decreases |s|
  {
    if |sub| > |s| {
      assert forall i :: !OccursAt(sub, s, i);
    } else if s[..|sub|] == sub {
      assert OccursAt(sub, s, 0);
    } else {
      IsSubstringCorrect(sub, s[1..]);
      if IsSubstring(sub, s[1..]) {
        var i :| OccursAt(sub, s[1..], i);
        assert s[i + 1..i + 1 + |sub|] == s[1..][i..i + |sub|];
        assert OccursAt(sub, s, i + 1);
      }
      if exists i :: OccursAt(sub, s, i) {
        var i :| OccursAt(sub, s, i);
        assert i != 0;
        assert s[1..][i - 1..i - 1 + |sub|] == s[i..i + |sub|];
        assert OccursAt(sub, s[1..], i - 1);
      }
    }
  }

  /** A string lacking the first character of `sub` does not contain `sub`. */
  lemma {:induction false} MissingFirstChar(sub: string, s: string)
    requires |sub| > 0 && sub[0] !in s
    ensures !IsSubstring(sub, s)
    decreases |s|
  {
    if |sub| <= |s| {
      assert s[..|sub|] != sub by {
        assert s[0] in s;
      }
      MissingFirstChar(sub, s[1..]);
    }
  }

  const LowRiskMarker := "Low Risk"
  const MediumRiskMarker := "Medium Risk"

  /** The level a profile string selects in advanced_analytics.py. */
  datatype RiskLevel = Low | Medium | High

  /** "Low Risk" is looked for first, then "Medium Risk"; every other string means high risk. */
  function LevelOf(riskProfile: string): RiskLevel
  {
    if IsSubstring(LowRiskMarker, riskProfile) then Low
    else if IsSubstring(MediumRiskMarker, riskProfile) then Medium
    else High
  }

  const LowRiskReturns: Table := [
    Entry("Large Cap", 0.06), Entry("Mid Cap", 0.08), Entry("Small Cap", 0.10),
    Entry("Gold", 0.04), Entry("ETFs/Crypto", 0.07)]

  const MediumRiskReturns: Table := [
    Entry("Large Cap", 0.08), Entry("Mid Cap", 0.10), Entry("Small Cap", 0.13),
    Entry("Gold", 0.04), Entry("ETFs/Crypto", 0.12)]

  const HighRiskReturns: Table := [
    Entry("Large Cap", 0.09), Entry("Mid Cap", 0.12), Entry("Small Cap", 0.15),
    Entry("Gold", 0.04), Entry("ETFs/Crypto", 0.18)]

  const LowRiskVolatility: Table := [
    Entry("Large Cap", 0.10), Entry("Mid Cap", 0.14), Entry("Small Cap", 0.18),
    Entry("Gold", 0.12), Entry("ETFs/Crypto", 0.20)]

  const MediumRiskVolatility: Table := [
    Entry("Large Cap", 0.12), Entry("Mid Cap", 0.16), Entry("Small Cap", 0.20),
    Entry("Gold", 0.12), Entry("ETFs/Crypto", 0.25)]

  const HighRiskVolatility: Table := [
    Entry("Large Cap", 0.15), Entry("Mid Cap", 0.20), Entry("Small Cap", 0.25),
    Entry("Gold", 0.12), Entry("ETFs/Crypto", 0.35)]

  /** `get_expected_return_rates`: whatever the profile, a rate for each of the five portfolio
      categories, in the same key order. */
  function ExpectedReturnRates(riskProfile: string): (r: Table)
    ensures Keys(r) == ["Large Cap", "Mid Cap", "Small Cap", "Gold", "ETFs/Crypto"]
  {
    match LevelOf(riskProfile)
    case Low => LowRiskReturns
    case Medium => MediumRiskReturns
    case High => HighRiskReturns
  }

  /** `get_volatility_estimates`: whatever the profile, a volatility for each of the five portfolio
      categories, in the same key order. */
  function VolatilityEstimates(riskProfile: string): (r: Table)
    ensures Keys(r) == ["Large Cap", "Mid Cap", "Small Cap", "Gold", "ETFs/Crypto"]
  {
    match LevelOf(riskProfile)
    case Low => LowRiskVolatility
    case Medium => MediumRiskVolatility
    case High => HighRiskVolatility
  }

  /** Both tables are chosen by substring: the low-risk tables exactly when "Low Risk" occurs in
      the profile, the medium-risk tables exactly when "Medium Risk" occurs and "Low Risk" does
      not, and the high-risk tables for every other string. */
  lemma TableSelection(riskProfile: string)
    ensures var low := exists i :: OccursAt(LowRiskMarker, riskProfile, i);
            var medium := exists i :: OccursAt(MediumRiskMarker, riskProfile, i);
      && (ExpectedReturnRates(riskProfile) == LowRiskReturns <==> low)
      && (ExpectedReturnRates(riskProfile) == MediumRiskReturns <==> !low && medium)
      && (ExpectedReturnRates(riskProfile) == HighRiskReturns <==> !low && !medium)
      && (VolatilityEstimates(riskProfile) == LowRiskVolatility <==> low)
      && (VolatilityEstimates(riskProfile) == MediumRiskVolatility <==> !low && medium)
      && (VolatilityEstimates(riskProfile) == HighRiskVolatility <==> !low && !medium)
  {
    IsSubstringCorrect(LowRiskMarker, riskProfile);
    IsSubstringCorrect(MediumRiskMarker, riskProfile);
    assert LowRiskReturns[1] != MediumRiskReturns[1] && MediumRiskReturns[1] != HighRiskReturns[1];
    assert LowRiskReturns[1] != HighRiskReturns[1];
    assert LowRiskVolatility[0] != MediumRiskVolatility[0] && MediumRiskVolatility[0] != HighRiskVolatility[0];
    assert LowRiskVolatility[0] != HighRiskVolatility[0];
  }

  /** The three profile names of the allocation tables select the matching level here, but the
      empty string selects high risk, where the allocation lookup falls back to the balanced table,
      and a string containing both markers selects low risk. */
  lemma ProfileNamesSelectLevels()
    ensures LevelOf("Low Risk (Conservative)") == Low
    ensures LevelOf("Medium Risk (Balanced)") == Medium
    ensures LevelOf("High Risk (Aggressive)") == High
    ensures LevelOf("") == High
    ensures LevelOf("Medium Risk, not Low Risk") == Low
  {
    ConservativeIsLow();
    BalancedIsMedium();
    AggressiveIsHigh();
    BothMarkersIsLow();
  }

  lemma ConservativeIsLow()
    ensures LevelOf("Low Risk (Conservative)") == Low
  {
    var conservative := "Low Risk (Conservative)";
    assert conservative[..|LowRiskMarker|] == LowRiskMarker;
  }

  lemma BalancedIsMedium()
    ensures LevelOf("Medium Risk (Balanced)") == Medium
  {
    BalancedLacksLow();
    BalancedHasMedium();
  }

  lemma BalancedLacksLow()
    ensures !IsSubstring(LowRiskMarker, "Medium Risk (Balanced)")
  {
    MissingFirstChar(LowRiskMarker, "Medium Risk (Balanced)");
  }

  lemma BalancedHasMedium()
    ensures IsSubstring(MediumRiskMarker, "Medium Risk (Balanced)")
  {
    var balanced := "Medium Risk (Balanced)";
    assert balanced[..|MediumRiskMarker|] == MediumRiskMarker;
  }

  lemma AggressiveIsHigh()
    ensures LevelOf("High Risk (Aggressive)") == High
  {
    AggressiveLacksLow();
    AggressiveLacksMedium();
  }

  lemma AggressiveLacksLow()
    ensures !IsSubstring(LowRiskMarker, "High Risk (Aggressive)")
  {
    MissingFirstChar(LowRiskMarker, "High Risk (Aggressive)");
  }

  lemma AggressiveLacksMedium()
    ensures !IsSubstring(MediumRiskMarker, "High Risk (Aggressive)")
  {
    MissingFirstChar(MediumRiskMarker, "High Risk (Aggressive)");
  }

  lemma BothMarkersIsLow()
    ensures LevelOf("Medium Risk, not Low Risk") == Low
  {
    var mixed := "Medium Risk, not Low Risk";
    assert OccursAt(LowRiskMarker, mixed, 17);
    IsSubstringCorrect(LowRiskMarker, mixed);
  }

  /** Every rate of a table lies in `[lo, hi]`. */
  ghost predicate RatesWithin(t: Table, lo: real, hi: real)
  {
    forall i :: 0 <= i < |t| ==> lo <= t[i].value <= hi
  }

  /** The return tables hold rates between 4% and 18%, the volatility tables between 10% and 35%,
      each over five distinct categories. */
  lemma RateTablesBounds(riskProfile: string)
    ensures |ExpectedReturnRates(riskProfile)| == 5 && DistinctKeys(ExpectedReturnRates(riskProfile))
    ensures |VolatilityEstimates(riskProfile)| == 5 && DistinctKeys(VolatilityEstimates(riskProfile))
    ensures RatesWithin(ExpectedReturnRates(riskProfile), 0.04, 0.18)
    ensures RatesWithin(VolatilityEstimates(riskProfile), 0.10, 0.35)
  {
    match LevelOf(riskProfile)
    case Low =>
      RateTableShape(LowRiskReturns, 0.04, 0.18);
      RateTableShape(LowRiskVolatility, 0.10, 0.35);
    case Medium =>
      RateTableShape(MediumRiskReturns, 0.04, 0.18);
      RateTableShape(MediumRiskVolatility, 0.10, 0.35);
    case High =>
      RateTableShape(HighRiskReturns, 0.04, 0.18);
      RateTableShape(HighRiskVolatility, 0.10, 0.35);
  }

  lemma RateTableShape(t: Table, lo: real, hi: real)
    requires Keys(t) == ["Large Cap", "Mid Cap", "Small Cap", "Gold", "ETFs/Crypto"]
    requires lo <= t[0].value <= hi && lo <= t[1].value <= hi && lo <= t[2].value <= hi
    requires lo <= t[3].value <= hi && lo <= t[4].value <= hi
    ensures |t| == 5 && DistinctKeys(t) && RatesWithin(t, lo, hi)
  {
    FiveCategoryTable(t);
  }

  // ---------------------------------------------------------------------------
  // Weighting

  /** One category's weight in the portfolio times its rate, the rate being `fallback` when the
      table has no entry for the category. */
  function Contribution(e: Entry, total: real, rates: Table, fallback: real): real
    requires total != 0.0
  {
    (e.value / total) * Get(rates, e.key, fallback)
  }

  /** The blend of `rates` over the category totals `t`, accumulated in the order of `t`. */
  function WeightedSum(t: Table, total: real, rates: Table, fallback: real): real
    requires t != [] ==> total != 0.0
  {
    if t == [] then 0.0
    else WeightedSum(t[..|t| - 1], total, rates, fallback) + Contribution(t[|t| - 1], total, rates, fallback)
  }

  /** The weighting loop of `predict_portfolio_performance`: categories the table lacks are skipped. */
  method WeightedRate(totals: Table, total: real, rates: Table) returns (w: real)
    requires totals != [] ==> total != 0.0
    ensures w == WeightedSum(totals, total, rates, 0.0)
  {
    w := 0.0;
    var i := 0;
    while i < |totals|
      invariant 0 <= i <= |totals|
      invariant w == WeightedSum(totals[..i], total, rates, 0.0)
    {
      var category, amount := totals[i].key, totals[i].value;
      assert totals[..i + 1][..i] == totals[..i];
      var weight := amount / total;
      if HasKey(rates, category) {
        w := w + weight * Get(rates, category, 0.0);
      } else {
        UnmappedContributesNothing(totals[i], total, rates);
      }
      i := i + 1;
    }
    assert totals[..|totals|] == totals;
  }

  /** A category missing from the rate table adds nothing to the blend. */
  lemma UnmappedContributesNothing(e: Entry, total: real, rates: Table)
    requires total != 0.0 && !HasKey(rates, e.key)
    ensures Contribution(e, total, rates, 0.0) == 0.0
  {
    GetAbsent(rates, e.key, 0.0);
  }

  /** The blend weighted per holding: each holding's amount over the total, times its category's rate. */
  function HoldingsWeightedSum(items: seq<Holding>, total: real, rates: Table, fallback: real): real
    requires items != [] ==> total != 0.0
  {
    if items == [] then 0.0
    else
      var last := items[|items| - 1];
      HoldingsWeightedSum(items[..|items| - 1], total, rates, fallback)
        + Contribution(Entry(last.category, last.amount), total, rates, fallback)
  }

  /** Blending the category totals gives the same value as blending every holding on its own:
      grouping by category neither adds nor loses weight. */
  lemma {:induction false} WeightedSumOfGrouping(items: seq<Holding>, total: real, rates: Table, fallback: real)
    requires total != 0.0
    ensures WeightedSum(CategoryTotals(items), total, rates, fallback) == HoldingsWeightedSum(items, total, rates, fallback)
  {
    if items != [] {
      var n := |items| - 1;
      var prefix := items[..n];
      var share := Contribution(Entry(items[n].category, items[n].amount), total, rates, fallback);
      assert HoldingsWeightedSum(items, total, rates, fallback) == HoldingsWeightedSum(prefix, total, rates, fallback) + share;
      assert CategoryTotals(items) == Accumulate(CategoryTotals(prefix), items[n].category, items[n].amount);
      WeightedSumOfGrouping(prefix, total, rates, fallback);
      WeightedSumAccumulate(CategoryTotals(prefix), items[n].category, items[n].amount, total, rates, fallback);
    }
  }

  lemma WeightedSumAccumulate(t: Table, k: string, v: real, total: real, rates: Table, fallback: real)
    requires total != 0.0
    ensures WeightedSum(Accumulate(t, k, v), total, rates, fallback)
      == WeightedSum(t, total, rates, fallback) + Contribution(Entry(k, v), total, rates, fallback)
  {
    if HasKey(t, k) {
      var i := IndexOf(t, k);
      var e := Entry(k, t[i].value + v);
      assert Accumulate(t, k, v) == t[i := e];
      WeightedSumUpdate(t, i, e, total, rates, fallback);
      ContributionAdd(t[i], v, total, rates, fallback);
    } else {
      var e := Entry(k, v);
      assert Accumulate(t, k, v) == t + [e];
      assert (t + [e])[..|t|] == t;
      assert WeightedSum(t + [e], total, rates, fallback) == WeightedSum(t, total, rates, fallback) + Contribution(e, total, rates, fallback);
    }
  }

  /** Adding `v` to an entry's value adds `v`'s share at the entry's rate. */
  lemma ContributionAdd(e: Entry, v: real, total: real, rates: Table, fallback: real)
    requires total != 0.0
    ensures Contribution(Entry(e.key, e.value + v), total, rates, fallback)
      == Contribution(e, total, rates, fallback) + Contribution(Entry(e.key, v), total, rates, fallback)
  {
    ShareAdd(e.value, v, total, Get(rates, e.key, fallback));
  }

  lemma ShareAdd(a: real, v: real, total: real, rate: real)
    requires total != 0.0
    ensures ((a + v) / total) * rate == (a / total) * rate + (v / total) * rate
  {
  }

  /** Replacing one entry changes the blend by the difference of the two contributions. */
  lemma {:induction false} WeightedSumUpdate(t: Table, i: nat, e: Entry, total: real, rates: Table, fallback: real)
    requires i < |t| && total != 0.0
    ensures WeightedSum(t[i := e], total, rates, fallback)
      == WeightedSum(t, total, rates, fallback) - Contribution(t[i], total, rates, fallback) + Contribution(e, total, rates, fallback)
    decreases |t|
  {
    var n := |t| - 1;
    if i < n {
      assert t[i := e][..n] == t[..n][i := e];
      WeightedSumUpdate(t[..n], i, e, total, rates, fallback);
    } else {
      assert t[i := e][..n] == t[..n];
    }
  }

  /** `w` lies between `lo` and `hi` times the share `part / total`. */
  ghost predicate Blended(w: real, part: real, total: real, lo: real, hi: real)
    requires total != 0.0
  {
    lo * (part / total) <= w <= hi * (part / total)
  }

  /** With non-negative category totals, every rate (and the fallback) in `[lo, hi]`, the blend
      lies between `lo` and `hi` times the share of the total that `t` covers. */
  lemma {:induction false} WeightedSumBounds(t: Table, total: real, rates: Table, fallback: real, lo: real, hi: real)
    requires total > 0.0
    requires forall i :: 0 <= i < |t| ==> t[i].value >= 0.0
    requires RatesWithin(rates, lo, hi) && lo <= fallback <= hi
    ensures Blended(WeightedSum(t, total, rates, fallback), Sum(t), total, lo, hi)
  {
    if t != [] {
      var n := |t| - 1;
      var prefix := t[..n];
      assert WeightedSum(t, total, rates, fallback) == WeightedSum(prefix, total, rates, fallback) + Contribution(t[n], total, rates, fallback);
      assert Sum(t) == Sum(prefix) + t[n].value;
      WeightedSumBounds(prefix, total, rates, fallback, lo, hi);
      ContributionBounds(t[n], total, rates, fallback, lo, hi);
      BoundStep(WeightedSum(prefix, total, rates, fallback), Sum(prefix), t[n].value, total, lo, hi,
        Contribution(t[n], total, rates, fallback), WeightedSum(t, total, rates, fallback), Sum(t));
    } else {
      BoundStep(0.0, 0.0, 0.0, total, lo, hi, 0.0, WeightedSum(t, total, rates, fallback), Sum(t));
    }
  }

  lemma {:induction false} GetWithin(t: Table, k: string, fallback: real, lo: real, hi: real)
    requires RatesWithin(t, lo, hi) && lo <= fallback <= hi
    ensures lo <= Get(t, k, fallback) <= hi
  {
    if t != [] && t[0].key != k {
      assert RatesWithin(t[1..], lo, hi) by {
        forall i | 0 <= i < |t[1..]| ensures lo <= t[1..][i].value <= hi {
          assert t[1..][i] == t[i + 1];
        }
      }
      GetWithin(t[1..], k, fallback, lo, hi);
    }
  }

  /** One step of the bound: adding a share `v` at a rate in `[lo, hi]` keeps the blend between
      `lo` and `hi` times the covered share. */
  lemma BoundStep(w: real, covered: real, v: real, total: real, lo: real, hi: real, c: real, w': real, covered': real)
    requires total > 0.0
    requires Blended(w, covered, total, lo, hi) && Blended(c, v, total, lo, hi)
    requires w' == w + c && covered' == covered + v
    ensures Blended(w', covered', total, lo, hi)
  {
    assert covered' / total == covered / total + v / total;
  }

  /** A non-negative amount at a rate in `[lo, hi]` contributes between `lo` and `hi` times its share. */
  lemma ContributionBounds(e: Entry, total: real, rates: Table, fallback: real, lo: real, hi: real)
    requires total > 0.0 && e.value >= 0.0
    requires RatesWithin(rates, lo, hi) && lo <= fallback <= hi
    ensures Blended(Contribution(e, total, rates, fallback), e.value, total, lo, hi)
  {
    GetWithin(rates, e.key, fallback, lo, hi);
    ShareBounds(e.value, total, Get(rates, e.key, fallback), lo, hi);
  }

  lemma ShareBounds(v: real, total: real, rate: real, lo: real, hi: real)
    requires total > 0.0 && v >= 0.0 && lo <= rate <= hi
    ensures lo * (v / total) <= (v / total) * rate <= hi * (v / total)
  {
  }

  /** For a portfolio of positive amounts the weighted return lies in `[0, 0.18]` and the weighted
      volatility in `[0, 0.35]`, whatever the profile. */
  lemma PortfolioRatesBounds(items: seq<Holding>, riskProfile: string)
    requires items != [] && PositiveAmounts(items)
    ensures TotalAmount(items) > 0.0
    ensures var total := TotalAmount(items);
      && 0.0 <= WeightedSum(CategoryTotals(items), total, ExpectedReturnRates(riskProfile), 0.0) <= 0.18
      && 0.0 <= WeightedSum(CategoryTotals(items), total, VolatilityEstimates(riskProfile), 0.0) <= 0.35
  {
    TotalAmountPositive(items);
    var total := TotalAmount(items);
    var totals := CategoryTotals(items);
    CategoryTotalsSum(items);
    CategoryTotalsPositive(items);
    RateTablesBounds(riskProfile);
    assert RatesWithin(ExpectedReturnRates(riskProfile), 0.0, 0.18);
    assert RatesWithin(VolatilityEstimates(riskProfile), 0.0, 0.35);
    WeightedSumBounds(totals, total, ExpectedReturnRates(riskProfile), 0.0, 0.0, 0.18);
    WeightedSumBounds(totals, total, VolatilityEstimates(riskProfile), 0.0, 0.0, 0.35);
    BlendedWhole(WeightedSum(totals, total, ExpectedReturnRates(riskProfile), 0.0), Sum(totals), total, 0.0, 0.18);
    BlendedWhole(WeightedSum(totals, total, VolatilityEstimates(riskProfile), 0.0), Sum(totals), total, 0.0, 0.35);
  }

  /** A blend over the whole total lies between `lo` and `hi` themselves. */
  lemma BlendedWhole(w: real, part: real, total: real, lo: real, hi: real)
    requires total != 0.0 && part == total && Blended(w, part, total, lo, hi)
    ensures lo <= w <= hi
  {
    assert part / total == 1.0;
  }
}
