/** Portfolio analysis and rebalancing (portfolio_analyzer.py): current allocation
    percentages, tiered insights against the risk profile's target table, the
    per-holding concentration check, and the increase/decrease actions. */
module PortfolioAnalyzer {
  import opened Wrappers
  import opened RealMath
  import opened Tables
  import opened Holdings
  import opened Allocation

  datatype Level = Warning | Info | Success

  /** One entry of the insight list; the message text is derived from these fields. */
  datatype Insight =
    | AddInvestments
    | NoInvestments(category: string, targetPct: real)
    | Imbalance(category: string, currentPct: real, targetPct: real, significant: bool)
    | Overconcentrated(name: string, holdingPct: real, maxAllowed: real)
    | WellBalanced
  {
    /** The `type` field of the insight. */
    function Level(): Level
    {
      match this
      case AddInvestments => Info
      case NoInvestments(_, _) => Warning
      case Imbalance(_, _, _, significant) => if significant then Warning else Info
      case Overconcentrated(_, _, _) => Warning
      case WellBalanced => Success
    }
  }

  datatype Analysis = Analysis(currentAllocation: Table, targetAllocation: Table, insights: seq<Insight>)

  /** The insight for one target category, if any: missing, more than 10 points off, or more than 5. */
  function CategoryInsight(target: Entry, current: Table): seq<Insight>
  {
    if !HasKey(current, target.key) then [NoInvestments(target.key, target.value)]
    else
      var pct := Get(current, target.key, 0.0);
      if Abs(pct - target.value) > 10.0 then [Imbalance(target.key, pct, target.value, true)]
      else if Abs(pct - target.value) > 5.0 then [Imbalance(target.key, pct, target.value, false)]
      else []
  }

  /** The imbalance insights, one pass over the target table in its order. */
  function ImbalanceInsights(target: Table, current: Table): seq<Insight>
  {
    if target == [] then []
    else ImbalanceInsights(target[..|target| - 1], current) + CategoryInsight(target[|target| - 1], current)
  }

  /** `max_pct_per_stock.get(risk_profile, 15)`. */
  function MaxHoldingPct(riskProfile: string): (m: real)
    ensures m in {10.0, 15.0, 20.0}
    ensures riskProfile == ConservativeProfile ==> m == 10.0
    ensures riskProfile == AggressiveProfile ==> m == 20.0
    ensures riskProfile != ConservativeProfile && riskProfile != AggressiveProfile ==> m == 15.0
  {
    if riskProfile == ConservativeProfile then 10.0
    else if riskProfile == BalancedProfile then 15.0
    else if riskProfile == AggressiveProfile then 20.0
    else 15.0
  }

  /** A holding's share of the portfolio, in percent. */
  function HoldingPct(item: Holding, total: real): real
    requires total != 0.0
  {
    (item.amount / total) * 100.0
  }

  /** The concentration warnings, one pass over the holdings in portfolio order. */
  function ConcentrationInsights(items: seq<Holding>, total: real, maxAllowed: real): seq<Insight>
    requires total != 0.0
  {
    if items == [] then []
    else
      var last := items[|items| - 1];
      var pct := HoldingPct(last, total);
      ConcentrationInsights(items[..|items| - 1], total, maxAllowed)
        + (if pct > maxAllowed then [Overconcentrated(last.name, pct, maxAllowed)] else [])
  }

  /** The category -> percentage-of-total table of a non-empty portfolio. */
  function CurrentAllocation(portfolio: seq<Holding>): Table
    requires TotalAmount(portfolio) != 0.0
  {
    ToPercentages(CategoryTotals(portfolio), TotalAmount(portfolio))
  }

  /** What `analyze_portfolio` returns. A non-empty portfolio whose amounts add up to zero
      makes the source divide by zero, so the caller must not pass one. */
  function Analyze(portfolio: seq<Holding>, riskProfile: string): (a: Analysis)
    requires portfolio != [] ==> TotalAmount(portfolio) != 0.0
    ensures a.targetAllocation == RiskProfileAllocation(riskProfile)
    ensures |a.insights| >= 1
    ensures WellBalanced in a.insights ==> a.insights == [WellBalanced]
  {
    var target := RiskProfileAllocation(riskProfile);
    if portfolio == [] then Analysis([], target, [AddInvestments])
    else
      var total := TotalAmount(portfolio);
      var current := CurrentAllocation(portfolio);
      var found := ImbalanceInsights(target, current)
        + ConcentrationInsights(portfolio, total, MaxHoldingPct(riskProfile));
      ImbalanceInsightsKinds(target, current);
      ConcentrationInsightsKinds(portfolio, total, MaxHoldingPct(riskProfile));
      Analysis(current, target, if found == [] then [WellBalanced] else found)
  }

  lemma {:induction false} ImbalanceInsightsKinds(target: Table, current: Table)
    ensures WellBalanced !in ImbalanceInsights(target, current)
  {
    if target != [] {
      ImbalanceInsightsKinds(target[..|target| - 1], current);
    }
  }

  lemma {:induction false} ConcentrationInsightsKinds(items: seq<Holding>, total: real, maxAllowed: real)
    requires total != 0.0
    ensures forall x :: x in ConcentrationInsights(items, total, maxAllowed) ==> x.Overconcentrated?
  {
    if items != [] {
      ConcentrationInsightsKinds(items[..|items| - 1], total, maxAllowed);
    }
  }

  /** `analyze_portfolio`: groups the amounts, converts them to percentages, then collects
      the imbalance insights and the concentration warnings into one list. */
  method AnalyzePortfolio(portfolio: seq<Holding>, riskProfile: string) returns (a: Analysis)
    requires portfolio != [] ==> TotalAmount(portfolio) != 0.0
    ensures a == Analyze(portfolio, riskProfile)
  {
    var target := RiskProfileAllocation(riskProfile);
    if portfolio == [] {
      return Analysis([], target, [AddInvestments]);
    }
    var total := TotalAmount(portfolio);
    var totals := GroupByCategory(portfolio);
    var current := ToPercentages(totals, total);
    var insights := CheckImbalances(target, current);
    insights := CheckConcentration(insights, portfolio, total, MaxHoldingPct(riskProfile));
    if insights == [] {
      insights := [WellBalanced];
    }
    a := Analysis(current, target, insights);
  }

  /** The imbalance loop of `analyze_portfolio`: one pass over the target table. */
  method CheckImbalances(target: Table, current: Table) returns (insights: seq<Insight>)
    ensures insights == ImbalanceInsights(target, current)
  {
    insights := [];
    var i := 0;
    while i < |target|
      invariant 0 <= i <= |target|
      invariant insights == ImbalanceInsights(target[..i], current)
    {
      var category, targetPct := target[i].key, target[i].value;
      var currentPct := Get(current, category, 0.0);
      assert target[..i + 1] == target[..i] + [target[i]];
      if !HasKey(current, category) {
        insights := insights + [NoInvestments(category, targetPct)];
      } else if Abs(currentPct - targetPct) > 10.0 {
        insights := insights + [Imbalance(category, currentPct, targetPct, true)];
      } else if Abs(currentPct - targetPct) > 5.0 {
        insights := insights + [Imbalance(category, currentPct, targetPct, false)];
      }
      i := i + 1;
    }
    assert target[..|target|] == target;
  }

  /** The concentration loop of `analyze_portfolio`: appends a warning for each holding above the ceiling. */
  method CheckConcentration(insights: seq<Insight>, portfolio: seq<Holding>, total: real, maxAllowed: real)
    returns (r: seq<Insight>)
    requires total != 0.0
    ensures r == insights + ConcentrationInsights(portfolio, total, maxAllowed)
  {
    r := insights;
    var j := 0;
    while j < |portfolio|
      invariant 0 <= j <= |portfolio|
      invariant r == insights + ConcentrationInsights(portfolio[..j], total, maxAllowed)
    {
      var itemPct := (portfolio[j].amount / total) * 100.0;
      assert portfolio[..j + 1] == portfolio[..j] + [portfolio[j]];
      if itemPct > maxAllowed {
        r := r + [Overconcentrated(portfolio[j].name, itemPct, maxAllowed)];
      }
      j := j + 1;
    }
    assert portfolio[..|portfolio|] == portfolio;
  }

  /** An empty portfolio gets no current allocation, the profile's target table, and one info insight. */
  lemma EmptyPortfolioAnalysis(riskProfile: string)
    ensures Analyze([], riskProfile).currentAllocation == []
    ensures Analyze([], riskProfile).targetAllocation == RiskProfileAllocation(riskProfile)
    ensures Analyze([], riskProfile).insights == [AddInvestments]
    ensures AddInvestments.Level() == Info
  {
  }

  /** The tiering of one target category: a warning when it is missing or more than 10 points
      off target, an info when it is more than 5 and at most 10 points off, nothing otherwise. */
  lemma CategoryInsightTiers(target: Entry, current: Table)
    ensures |CategoryInsight(target, current)| <= 1
    ensures var ins := CategoryInsight(target, current);
            var diff := Abs(Get(current, target.key, 0.0) - target.value);
            && (|ins| == 1 && ins[0].Level() == Warning <==> !HasKey(current, target.key) || diff > 10.0)
            && (|ins| == 1 && ins[0].Level() == Info <==> HasKey(current, target.key) && 5.0 < diff <= 10.0)
            && (ins == [] <==> HasKey(current, target.key) && diff <= 5.0)
  {
  }

  /** The imbalance insights are exactly the per-category insights of the target table. */
  lemma {:induction false} ImbalanceInsightsMembers(target: Table, current: Table)
    ensures |ImbalanceInsights(target, current)| <= |target|
    ensures forall k, x :: 0 <= k < |target| && x in CategoryInsight(target[k], current) ==> x in ImbalanceInsights(target, current)
    ensures forall x :: x in ImbalanceInsights(target, current) ==> exists k :: 0 <= k < |target| && x in CategoryInsight(target[k], current)
  {
    if target != [] {
      var n := |target| - 1;
      var prefix := target[..n];
      ImbalanceInsightsMembers(prefix, current);
      forall k, x | 0 <= k < |target| && x in CategoryInsight(target[k], current)
        ensures x in ImbalanceInsights(target, current)
      {
        if k < n {
          assert prefix[k] == target[k];
        }
      }
      forall x | x in ImbalanceInsights(target, current)
        ensures exists k :: 0 <= k < |target| && x in CategoryInsight(target[k], current)
      {
        if x in ImbalanceInsights(prefix, current) {
          var k :| 0 <= k < n && x in CategoryInsight(prefix[k], current);
          assert prefix[k] == target[k];
        }
      }
    }
  }

  /** A holding is flagged exactly when its share exceeds the profile's ceiling. */
  lemma {:induction false} ConcentrationInsightsMembers(items: seq<Holding>, total: real, maxAllowed: real)
    requires total != 0.0
    ensures forall x :: x in ConcentrationInsights(items, total, maxAllowed) <==>
      exists i :: 0 <= i < |items| && HoldingPct(items[i], total) > maxAllowed
        && x == Overconcentrated(items[i].name, HoldingPct(items[i], total), maxAllowed)
  {
    if items != [] {
      var n := |items| - 1;
      var prefix := items[..n];
      ConcentrationInsightsMembers(prefix, total, maxAllowed);
      forall x ensures x in ConcentrationInsights(items, total, maxAllowed) <==>
        exists i :: 0 <= i < |items| && HoldingPct(items[i], total) > maxAllowed
          && x == Overconcentrated(items[i].name, HoldingPct(items[i], total), maxAllowed)
      {
        if (exists i :: 0 <= i < |items| && HoldingPct(items[i], total) > maxAllowed
              && x == Overconcentrated(items[i].name, HoldingPct(items[i], total), maxAllowed))
        {
          var i :| 0 <= i < |items| && HoldingPct(items[i], total) > maxAllowed
            && x == Overconcentrated(items[i].name, HoldingPct(items[i], total), maxAllowed);
          if i < n {
            assert prefix[i] == items[i];
          }
        }
        if x in ConcentrationInsights(prefix, total, maxAllowed) {
          var i :| 0 <= i < |prefix| && HoldingPct(prefix[i], total) > maxAllowed
            && x == Overconcentrated(prefix[i].name, HoldingPct(prefix[i], total), maxAllowed);
          assert items[i] == prefix[i];
        }
      }
    }
  }

  /** A target category that is held and within 5 points of its target. */
  predicate WithinTolerance(target: Entry, current: Table)
  {
    HasKey(current, target.key) && Abs(Get(current, target.key, 0.0) - target.value) <= 5.0
  }

  /** No imbalance insight at all exactly when every target category is held and within 5 points. */
  lemma {:induction false} NoImbalanceInsights(target: Table, current: Table)
    ensures ImbalanceInsights(target, current) == [] <==>
      forall k :: 0 <= k < |target| ==> WithinTolerance(target[k], current)
  {
    if target != [] {
      var n := |target| - 1;
      var prefix := target[..n];
      NoImbalanceInsights(prefix, current);
      var last := CategoryInsight(target[n], current);
      assert ImbalanceInsights(target, current) == ImbalanceInsights(prefix, current) + last;
      assert last == [] <==> WithinTolerance(target[n], current);
      if forall k :: 0 <= k < |target| ==> WithinTolerance(target[k], current) {
        assert forall k :: 0 <= k < n ==> WithinTolerance(prefix[k], current);
      }
      if ImbalanceInsights(target, current) == [] {
        assert ImbalanceInsights(prefix, current) == [] && last == [];
        forall k | 0 <= k < |target| ensures WithinTolerance(target[k], current) {
          if k < n {
            assert prefix[k] == target[k];
          }
        }
      }
    }
  }

  /** No concentration warning exactly when no holding's share exceeds the ceiling. */
  lemma {:induction false} NoConcentrationInsights(items: seq<Holding>, total: real, maxAllowed: real)
    requires total != 0.0
    ensures ConcentrationInsights(items, total, maxAllowed) == [] <==>
      forall i :: 0 <= i < |items| ==> HoldingPct(items[i], total) <= maxAllowed
  {
    if items != [] {
      var n := |items| - 1;
      NoConcentrationInsights(items[..n], total, maxAllowed);
      assert forall i :: 0 <= i < n ==> items[..n][i] == items[i];
    }
  }

  /** A non-empty portfolio is reported as well balanced exactly when no rule fires: every target
      category is held and within 5 points of its target, and no holding exceeds the ceiling. */
  lemma WellBalancedExactly(portfolio: seq<Holding>, riskProfile: string)
    requires portfolio != [] && TotalAmount(portfolio) != 0.0
    ensures var a := Analyze(portfolio, riskProfile);
            var total := TotalAmount(portfolio);
      a.insights == [WellBalanced] <==>
        && (forall k :: 0 <= k < |a.targetAllocation| ==> WithinTolerance(a.targetAllocation[k], a.currentAllocation))
        && (forall i :: 0 <= i < |portfolio| ==> HoldingPct(portfolio[i], total) <= MaxHoldingPct(riskProfile))
  {
    var a := Analyze(portfolio, riskProfile);
    var total := TotalAmount(portfolio);
    NoImbalanceInsights(a.targetAllocation, a.currentAllocation);
    NoConcentrationInsights(portfolio, total, MaxHoldingPct(riskProfile));
    ImbalanceInsightsKinds(a.targetAllocation, a.currentAllocation);
    ConcentrationInsightsKinds(portfolio, total, MaxHoldingPct(riskProfile));
    var found := ImbalanceInsights(a.targetAllocation, a.currentAllocation)
      + ConcentrationInsights(portfolio, total, MaxHoldingPct(riskProfile));
    if found != [] {
      assert found[0] in found;
      assert found[0] != WellBalanced;
    }
  }

  /** With positive amounts the current allocation has one entry per held category, holding that
      category's amount as a percentage of the total, and the percentages add up to 100. */
  lemma CurrentAllocationPercentages(portfolio: seq<Holding>)
    requires portfolio != [] && PositiveAmounts(portfolio)
    ensures TotalAmount(portfolio) > 0.0
    ensures var current := CurrentAllocation(portfolio);
      && DistinctKeys(current)
      && Sum(current) == 100.0
      && (forall c :: HasKey(current, c) <==> HasCategory(portfolio, c))
      && (forall c :: HasKey(current, c) ==>
            Get(current, c, 0.0) == (CategorySum(portfolio, c) / TotalAmount(portfolio)) * 100.0)
  {
    TotalAmountPositive(portfolio);
    var total := TotalAmount(portfolio);
    var totals := CategoryTotals(portfolio);
    var current := CurrentAllocation(portfolio);
    assert current == ToPercentages(totals, total);
    CategoryTotalsSum(portfolio);
    PercentagesSum(totals, total);
    WholeIsHundredPercent(Sum(totals), total);
    CategoryTotalsEntries(portfolio);
    forall c
      ensures HasKey(current, c) <==> HasCategory(portfolio, c)
      ensures HasKey(current, c) ==> Get(current, c, 0.0) == (CategorySum(portfolio, c) / total) * 100.0
    {
      PercentagesGet(totals, total, c);
      assert HasKey(totals, c) <==> HasCategory(portfolio, c);
      assert Get(totals, c, 0.0) == CategorySum(portfolio, c);
    }
    PercentagesGet(totals, total, "");
  }

  lemma WholeIsHundredPercent(part: real, whole: real)
    requires part == whole && whole != 0.0
    ensures (part / whole) * 100.0 == 100.0
  {
  }

  lemma AnalysisCurrentAllocation(portfolio: seq<Holding>, riskProfile: string)
    requires portfolio != [] && TotalAmount(portfolio) != 0.0
    ensures Analyze(portfolio, riskProfile).currentAllocation == CurrentAllocation(portfolio)
  {
  }

  // ---------------------------------------------------------------------------
  // Rebalancing

  datatype ActionType = Increase | Decrease

  /** One rebalancing action; the message text is derived from these fields. */
  datatype Action = Action(category: string, actionType: ActionType, currentAmount: real, targetAmount: real, difference: real)

  /** The keys of the returned dictionary: the actions, then an empty "allocation" for an empty
      portfolio or the total invested for any other. */
  datatype Recommendation = Recommendation(actions: seq<Action>, allocation: Option<Table>, totalInvestment: Option<real>)

  /** `pct` percent of `total`. */
  function PercentOf(total: real, pct: real): real
  {
    total * (pct / 100.0)
  }

  /** The amount held in category `c`, recovered from its percentage of the total (zero when absent). */
  function CurrentAmount(current: Table, total: real, c: string): real
  {
    var pct := Get(current, c, 0.0);
    if pct > 0.0 then PercentOf(total, pct) else 0.0
  }

  /** The action for one target category, if its amount is off by more than 1% of the total. */
  function CategoryAction(target: Entry, current: Table, total: real): seq<Action>
  {
    var currentAmount := CurrentAmount(current, total, target.key);
    var targetAmount := PercentOf(total, target.value);
    var difference := targetAmount - currentAmount;
    if Abs(difference) > total * 0.01 then
      [Action(target.key, if difference > 0.0 then Increase else Decrease, currentAmount, targetAmount, difference)]
    else []
  }

  function RebalanceActions(target: Table, current: Table, total: real): seq<Action>
  {
    if target == [] then []
    else RebalanceActions(target[..|target| - 1], current, total) + CategoryAction(target[|target| - 1], current, total)
  }

  /** What `get_allocation_recommendation` returns for a portfolio and its analysis. */
  function Recommend(portfolio: seq<Holding>, analysis: Analysis): Recommendation
  {
    if portfolio == [] then Recommendation([], Some([]), None)
    else
      var total := TotalAmount(portfolio);
      Recommendation(RebalanceActions(analysis.targetAllocation, analysis.currentAllocation, total), None, Some(total))
  }

  /** `get_allocation_recommendation`: one pass over the target table collecting actions. */
  method GetAllocationRecommendation(portfolio: seq<Holding>, analysis: Analysis) returns (r: Recommendation)
    ensures r == Recommend(portfolio, analysis)
  {
    if portfolio == [] {
      return Recommendation([], Some([]), None);
    }
    var current, target := analysis.currentAllocation, analysis.targetAllocation;
    var total := TotalAmount(portfolio);
    var actions: seq<Action> := [];
    var i := 0;
    while i < |target|
      invariant 0 <= i <= |target|
      invariant actions == RebalanceActions(target[..i], current, total)
    {
      assert target[..i + 1] == target[..i] + [target[i]];
      actions := AppendRowAction(actions, target[i], current, total);
      i := i + 1;
    }
    assert target[..|target|] == target;
    r := Recommendation(actions, None, Some(total));
  }

  /** The body of the rebalancing loop: compares one target row with the current amount and
      appends an increase or decrease action when they differ by more than 1% of the total. */
  method AppendRowAction(actions: seq<Action>, row: Entry, current: Table, total: real) returns (r: seq<Action>)
    ensures r == actions + CategoryAction(row, current, total)
  {
    var currentAmount := CurrentAmount(current, total, row.key);
    var targetAmount := PercentOf(total, row.value);
    var difference := targetAmount - currentAmount;
    r := actions;
    if Abs(difference) > total * 0.01 {
      if difference > 0.0 {
        r := r + [Action(row.key, Increase, currentAmount, targetAmount, difference)];
      } else {
        r := r + [Action(row.key, Decrease, currentAmount, targetAmount, difference)];
      }
    } else {
      assert CategoryAction(row, current, total) == [];
    }
  }

  /** The fields of an action agree with each other, with its target-table row and with the
      current allocation. */
  ghost predicate ConsistentAction(a: Action, target: Table, current: Table, total: real)
  {
    && HasKey(target, a.category)
    && a.currentAmount == CurrentAmount(current, total, a.category)
    && a.targetAmount == PercentOf(total, Get(target, a.category, 0.0))
    && a.difference == a.targetAmount - a.currentAmount
    && (a.actionType == Increase <==> a.difference > 0.0)
    && Abs(a.difference) > total * 0.01
  }

  /** The amount by which category `c` is below target (negative when above). */
  function Shortfall(target: Table, current: Table, total: real, c: string): real
  {
    PercentOf(total, Get(target, c, 0.0)) - CurrentAmount(current, total, c)
  }

  /** The action of one target row: there is one exactly when the gap between the target amount
      and the current amount exceeds 1% of the total, and it then records that gap and its sign. */
  lemma CategoryActionMeaning(e: Entry, current: Table, total: real)
    ensures |CategoryAction(e, current, total)| <= 1
    ensures var gap := PercentOf(total, e.value) - CurrentAmount(current, total, e.key);
      && (CategoryAction(e, current, total) != [] <==> Abs(gap) > total * 0.01)
      && forall a :: a in CategoryAction(e, current, total) ==>
           && a.category == e.key
           && a.currentAmount == CurrentAmount(current, total, e.key)
           && a.targetAmount == PercentOf(total, e.value)
           && a.difference == gap
           && (a.actionType == Increase <==> gap > 0.0)
  {
  }

  /** Splitting off the last row of a table with distinct keys: its keys are the prefix's plus the
      last key, and positions of the prefix's keys are unchanged. */
  lemma LastRow(target: Table)
    requires DistinctKeys(target) && target != []
    ensures var n := |target| - 1; var prefix := target[..n]; var e := target[n];
      && DistinctKeys(prefix)
      && !HasKey(prefix, e.key)
      && (forall c :: HasKey(target, c) <==> HasKey(prefix, c) || c == e.key)
      && (forall c :: HasKey(prefix, c) ==> IndexOf(target, c) == IndexOf(prefix, c))
      && HasKey(target, e.key) && IndexOf(target, e.key) == n
  {
    var n := |target| - 1;
    var prefix := target[..n];
    var e := target[n];
    forall c | HasKey(target, c) && c != e.key ensures HasKey(prefix, c) {
      var k :| 0 <= k < |target| && target[k].key == c;
      assert prefix[k].key == c;
    }
    forall c | HasKey(prefix, c) ensures HasKey(target, c) && IndexOf(target, c) == IndexOf(prefix, c) {
      var k := IndexOf(prefix, c);
      assert target[k] == prefix[k];
      IndexOfUnique(target, c, k);
    }
    IndexOfUnique(target, e.key, n);
  }

  lemma IndexOfUnique(t: Table, k: string, i: nat)
    requires DistinctKeys(t) && i < |t| && t[i].key == k
    ensures HasKey(t, k) && IndexOf(t, k) == i
  {
  }

  /** The actions are exactly the row actions of the target table. */
  lemma {:induction false} RebalanceActionsMembers(target: Table, current: Table, total: real)
    ensures |RebalanceActions(target, current, total)| <= |target|
    ensures forall k, a :: 0 <= k < |target| && a in CategoryAction(target[k], current, total) ==>
      a in RebalanceActions(target, current, total)
    ensures forall a :: a in RebalanceActions(target, current, total) ==>
      exists k :: 0 <= k < |target| && a in CategoryAction(target[k], current, total)
  {
    if target != [] {
      var n := |target| - 1;
      var prefix := target[..n];
      RebalanceActionsMembers(prefix, current, total);
      CategoryActionMeaning(target[n], current, total);
      forall k, a | 0 <= k < |target| && a in CategoryAction(target[k], current, total)
        ensures a in RebalanceActions(target, current, total)
      {
        if k < n {
          assert prefix[k] == target[k];
        }
      }
      forall a | a in RebalanceActions(target, current, total)
        ensures exists k :: 0 <= k < |target| && a in CategoryAction(target[k], current, total)
      {
        if a in RebalanceActions(prefix, current, total) {
          var k :| 0 <= k < n && a in CategoryAction(prefix[k], current, total);
          assert prefix[k] == target[k];
        }
      }
    }
  }

  /** With distinct target keys, each action comes from the row of its own category. */
  lemma RebalanceActionsRows(target: Table, current: Table, total: real)
    requires DistinctKeys(target)
    ensures forall a :: a in RebalanceActions(target, current, total) ==>
      HasKey(target, a.category) && a in CategoryAction(target[IndexOf(target, a.category)], current, total)
  {
    RebalanceActionsMembers(target, current, total);
    forall a | a in RebalanceActions(target, current, total)
      ensures HasKey(target, a.category) && a in CategoryAction(target[IndexOf(target, a.category)], current, total)
    {
      var k :| 0 <= k < |target| && a in CategoryAction(target[k], current, total);
      CategoryActionMeaning(target[k], current, total);
      IndexOfUnique(target, a.category, k);
    }
  }

  /** Every action is consistent with its target row and the current allocation. */
  lemma RebalanceActionsConsistent(target: Table, current: Table, total: real)
    requires DistinctKeys(target)
    ensures forall a :: a in RebalanceActions(target, current, total) ==> ConsistentAction(a, target, current, total)
  {
    RebalanceActionsMembers(target, current, total);
    forall a | a in RebalanceActions(target, current, total)
      ensures ConsistentAction(a, target, current, total)
    {
      var k :| 0 <= k < |target| && a in CategoryAction(target[k], current, total);
      RowActionConsistent(target, k, current, total, a);
    }
  }

  lemma RowActionConsistent(target: Table, k: nat, current: Table, total: real, a: Action)
    requires DistinctKeys(target) && k < |target| && a in CategoryAction(target[k], current, total)
    ensures ConsistentAction(a, target, current, total)
  {
    GetAt(target, k, 0.0);
    CategoryActionMeaning(target[k], current, total);
    assert a.category == target[k].key;
    assert Get(target, a.category, 0.0) == target[k].value;
  }

  /** A target category gets an action exactly when its shortfall exceeds 1% of the total. */
  lemma RebalanceActionsThreshold(target: Table, current: Table, total: real, c: string)
    requires DistinctKeys(target)
    ensures (exists a :: a in RebalanceActions(target, current, total) && a.category == c) <==>
            HasKey(target, c) && Abs(Shortfall(target, current, total, c)) > total * 0.01
  {
    RebalanceActionsRows(target, current, total);
    if HasKey(target, c) {
      var k := IndexOf(target, c);
      RowShortfall(target, k, current, total);
      RebalanceActionsMembers(target, current, total);
      if Abs(Shortfall(target, current, total, c)) > total * 0.01 {
        var a := CategoryAction(target[k], current, total)[0];
        assert a in CategoryAction(target[k], current, total);
      }
    }
  }

  /** A row has an action exactly when its category's shortfall exceeds 1% of the total. */
  lemma RowShortfall(target: Table, k: nat, current: Table, total: real)
    requires DistinctKeys(target) && k < |target|
    ensures (CategoryAction(target[k], current, total) != []) <==>
      Abs(Shortfall(target, current, total, target[k].key)) > total * 0.01
    ensures forall a :: a in CategoryAction(target[k], current, total) ==> a.category == target[k].key
  {
    GetAt(target, k, 0.0);
    CategoryActionMeaning(target[k], current, total);
  }

  /** Each of `acts` names a category of `target`, and they appear in the order of `target`. */
  ghost predicate FollowsTableOrder(acts: seq<Action>, target: Table)
  {
    && (forall a :: a in acts ==> HasKey(target, a.category))
    && forall i, j :: 0 <= i < j < |acts| && HasKey(target, acts[i].category) && HasKey(target, acts[j].category) ==>
         IndexOf(target, acts[i].category) < IndexOf(target, acts[j].category)
  }

  /** The actions follow the target table's order. */
  lemma {:induction false} RebalanceActionsOrdered(target: Table, current: Table, total: real)
    requires DistinctKeys(target)
    ensures FollowsTableOrder(RebalanceActions(target, current, total), target)
  {
    if target != [] {
      var n := |target| - 1;
      var prefix := target[..n];
      LastRow(target);
      RebalanceActionsOrdered(prefix, current, total);
      CategoryActionMeaning(target[n], current, total);
      var acts := RebalanceActions(target, current, total);
      var before := RebalanceActions(prefix, current, total);
      assert acts == before + CategoryAction(target[n], current, total);
      forall i, j | 0 <= i < j < |acts| && HasKey(target, acts[i].category) && HasKey(target, acts[j].category)
        ensures IndexOf(target, acts[i].category) < IndexOf(target, acts[j].category)
      {
        var ci, cj := acts[i].category, acts[j].category;
        assert acts[i] == before[i] && before[i] in before;
        assert IndexOf(target, ci) == IndexOf(prefix, ci) < n;
        if j < |before| {
          assert acts[j] == before[j] && before[j] in before;
          assert IndexOf(target, cj) == IndexOf(prefix, cj);
        } else {
          assert acts[j] in CategoryAction(target[n], current, total);
        }
      }
      forall a | a in acts ensures HasKey(target, a.category) {
        if a in before {
          assert HasKey(prefix, a.category);
        }
      }
    }
  }

  /** Rebalancing an empty portfolio proposes nothing, reports an empty allocation and no total. */
  lemma EmptyPortfolioRecommendation(analysis: Analysis)
    ensures Recommend([], analysis) == Recommendation([], Some([]), None)
  {
  }

  /** Rebalancing the analysis of a positive portfolio reports the portfolio's total, and each
      action's current amount is the sum of that category's holdings (zero when none is held). */
  lemma RecommendationOfAnalysis(portfolio: seq<Holding>, riskProfile: string)
    requires portfolio != [] && PositiveAmounts(portfolio)
    ensures TotalAmount(portfolio) > 0.0
    ensures var r := Recommend(portfolio, Analyze(portfolio, riskProfile));
      && r.totalInvestment == Some(TotalAmount(portfolio)) && r.allocation == None
      && forall a :: a in r.actions ==> a.currentAmount == CategorySum(portfolio, a.category)
  {
    TotalAmountPositive(portfolio);
    var total := TotalAmount(portfolio);
    var current := CurrentAllocation(portfolio);
    var target := RiskProfileAllocation(riskProfile);
    AnalysisCurrentAllocation(portfolio, riskProfile);
    assert Recommend(portfolio, Analyze(portfolio, riskProfile)).actions == RebalanceActions(target, current, total);
    RebalanceActionsMembers(target, current, total);
    forall a | a in RebalanceActions(target, current, total)
      ensures a.currentAmount == CategorySum(portfolio, a.category)
    {
      var k :| 0 <= k < |target| && a in CategoryAction(target[k], current, total);
      CategoryActionMeaning(target[k], current, total);
      CurrentAmountOfCategory(portfolio, a.category);
    }
  }

  /** The current amount the rebalancing loop recovers from a percentage is the category's sum. */
  lemma CurrentAmountOfCategory(portfolio: seq<Holding>, c: string)
    requires portfolio != [] && PositiveAmounts(portfolio)
    ensures TotalAmount(portfolio) > 0.0
    ensures CurrentAmount(CurrentAllocation(portfolio), TotalAmount(portfolio), c) == CategorySum(portfolio, c)
  {
    TotalAmountPositive(portfolio);
    var current := CurrentAllocation(portfolio);
    var total := TotalAmount(portfolio);
    var s := CategorySum(portfolio, c);
    var pct := Get(current, c, 0.0);
    assert CurrentAmount(current, total, c) == if pct > 0.0 then PercentOf(total, pct) else 0.0;
    CurrentAllocationPercentages(portfolio);
    CategorySumPositive(portfolio, c);
    if HasKey(current, c) {
      assert pct == (s / total) * 100.0;
      PercentRoundTrip(s, total, pct);
    } else {
      GetAbsent(current, c, 0.0);
      assert !HasCategory(portfolio, c);
      CategorySumAbsent(portfolio, c);
    }
  }

  /** Taking a positive part as a percentage of a positive whole and back returns the part. */
  lemma PercentRoundTrip(part: real, whole: real, pct: real)
    requires part > 0.0 && whole > 0.0 && pct == (part / whole) * 100.0
    ensures pct > 0.0 && PercentOf(whole, pct) == part
  {
  }

  lemma {:induction false} CategorySumAbsent(items: seq<Holding>, c: string)
    requires forall i :: 0 <= i < |items| ==> items[i].category != c
    ensures CategorySum(items, c) == 0.0
  {
    if items != [] {
      CategorySumAbsent(items[..|items| - 1], c);
    }
  }
}
