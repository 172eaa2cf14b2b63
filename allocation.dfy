/** Target allocations by risk profile (utils.py): one fixed category -> percentage
    table per profile, looked up by the exact profile name with the balanced table
    as the fallback. */
module Allocation {
  import opened Tables

  const ConservativeProfile := "Low Risk (Conservative)"
  const BalancedProfile := "Medium Risk (Balanced)"
  const AggressiveProfile := "High Risk (Aggressive)"

  /** The five categories every target table covers; "Other" is never targeted. */
  const TargetCategories: set<string> := {"Large Cap", "Mid Cap", "Small Cap", "Gold", "ETFs/Crypto"}

  const ConservativeAllocation: Table := [
    Entry("Large Cap", 40.0), Entry("Mid Cap", 25.0), Entry("Small Cap", 20.0),
    Entry("Gold", 10.0), Entry("ETFs/Crypto", 5.0)]

  const BalancedAllocation: Table := [
    Entry("Large Cap", 30.0), Entry("Mid Cap", 30.0), Entry("Small Cap", 25.0),
    Entry("Gold", 10.0), Entry("ETFs/Crypto", 5.0)]

  // The aggressive table lists ETFs/Crypto before Gold, which fixes the order of its insights and actions.
  const AggressiveAllocation: Table := [
    Entry("Large Cap", 25.0), Entry("Mid Cap", 25.0), Entry("Small Cap", 35.0),
    Entry("ETFs/Crypto", 10.0), Entry("Gold", 5.0)]

  /** A well-formed target table: five distinct categories, each non-negative, summing to 100. */
  ghost predicate IsTargetTable(t: Table)
  {
    && |t| == 5
    && DistinctKeys(t)
    && (forall c :: HasKey(t, c) <==> c in TargetCategories)
    && (forall i :: 0 <= i < |t| ==> t[i].value >= 0.0)
    && Sum(t) == 100.0
  }

  lemma TablesWellFormed()
    ensures IsTargetTable(ConservativeAllocation)
    ensures IsTargetTable(BalancedAllocation)
    ensures IsTargetTable(AggressiveAllocation)
  {
    ConservativeWellFormed();
    BalancedWellFormed();
    AggressiveWellFormed();
  }

  lemma ConservativeWellFormed()
    ensures IsTargetTable(ConservativeAllocation)
  {
    FiveCategoryTable(ConservativeAllocation);
    SumOfFive(ConservativeAllocation);
  }

  lemma BalancedWellFormed()
    ensures IsTargetTable(BalancedAllocation)
  {
    FiveCategoryTable(BalancedAllocation);
    SumOfFive(BalancedAllocation);
  }

  lemma AggressiveWellFormed()
    ensures IsTargetTable(AggressiveAllocation)
  {
    FiveCategoryTable(AggressiveAllocation);
    SumOfFive(AggressiveAllocation);
  }

  lemma SumOfFive(t: Table)
    requires |t| == 5
    ensures Sum(t) == t[0].value + t[1].value + t[2].value + t[3].value + t[4].value
  {
    SumPrefixStep(t, 0);
    SumPrefixStep(t, 1);
    SumPrefixStep(t, 2);
    SumPrefixStep(t, 3);
    SumPrefixStep(t, 4);
    assert t[..0] == [] && t[..5] == t;
  }

  lemma FiveCategoryTable(t: Table)
    requires |t| == 5
    requires Keys(t) == ["Large Cap", "Mid Cap", "Small Cap", "Gold", "ETFs/Crypto"]
          || Keys(t) == ["Large Cap", "Mid Cap", "Small Cap", "ETFs/Crypto", "Gold"]
    ensures DistinctKeys(t)
    ensures forall c :: HasKey(t, c) <==> c in TargetCategories
  {
    var ks := Keys(t);
    assert forall i :: 0 <= i < 5 ==> ks[i] in TargetCategories;
    forall c | c in TargetCategories ensures HasKey(t, c) {
      if c == ks[0] { assert t[0].key == c; }
      else if c == ks[1] { assert t[1].key == c; }
      else if c == ks[2] { assert t[2].key == c; }
      else if c == ks[3] { assert t[3].key == c; }
      else { assert t[4].key == c; }
    }
    forall i, j | 0 <= i < j < 5 ensures t[i].key != t[j].key {
      assert ks[i] != ks[j];
    }
  }

  /** `get_risk_profile_allocation`: the table of the profile named exactly, else the balanced one. */
  function RiskProfileAllocation(riskProfile: string): (t: Table)
    ensures riskProfile == ConservativeProfile ==> t == ConservativeAllocation
    ensures riskProfile == AggressiveProfile ==> t == AggressiveAllocation
    ensures riskProfile != ConservativeProfile && riskProfile != AggressiveProfile ==> t == BalancedAllocation
  {
    if riskProfile == ConservativeProfile then ConservativeAllocation
    else if riskProfile == BalancedProfile then BalancedAllocation
    else if riskProfile == AggressiveProfile then AggressiveAllocation
    else BalancedAllocation
  }

  /** Whatever the profile string, the table returned covers the five target categories once
      each, with non-negative percentages that add up to exactly 100. */
  lemma RiskProfileAllocationWellFormed(riskProfile: string)
    ensures IsTargetTable(RiskProfileAllocation(riskProfile))
  {
    TablesWellFormed();
  }

  /** Matching is by the whole name: a shortened name or the empty string selects the balanced table. */
  lemma ExactNameMatching()
    ensures RiskProfileAllocation("Low Risk") == BalancedAllocation
    ensures RiskProfileAllocation("High Risk") == BalancedAllocation
    ensures RiskProfileAllocation("") == BalancedAllocation
    ensures RiskProfileAllocation(ConservativeProfile) != RiskProfileAllocation("Low Risk")
  {
  }
}
