/** The goal arithmetic of goals.py: the allocation table chosen by goal timeline and risk
    level, the expected return rate of a risk level, the progress percentage towards a goal
    and the monthly investment needed to reach it. */
module Goals {
  import opened Wrappers
  import opened RealMath
  import opened Tables

  /** The six categories every goal table covers. */
  const GoalCategories: set<string> := {"Large Cap", "Mid Cap", "Small Cap", "Gold", "ETFs/Crypto", "Bonds/Fixed Income"}

  /** Goal timelines: short under 5 years, medium from 5 to 14, long from 15. */
  datatype Timeline = ShortTerm | MediumTerm | LongTerm

  function TimelineOf(years: int): (t: Timeline)
    ensures t == ShortTerm <==> years < 5
    ensures t == MediumTerm <==> 5 <= years < 15
    ensures t == LongTerm <==> years >= 15
  {
    if years < 5 then ShortTerm else if years < 15 then MediumTerm else LongTerm
  }

  /** Risk levels: "Low", "Medium", and every other string, which counts as high. */
  datatype RiskTier = LowRisk | MediumRisk | HighRisk

  function TierOf(riskLevel: string): (t: RiskTier)
    ensures t == LowRisk <==> riskLevel == "Low"
    ensures t == MediumRisk <==> riskLevel == "Medium"
    ensures t == HighRisk <==> riskLevel != "Low" && riskLevel != "Medium"
  {
    if riskLevel == "Low" then LowRisk else if riskLevel == "Medium" then MediumRisk else HighRisk
  }

  /** A goal table in the source's key order, percentages as written. */
  function GoalTable(largeCap: real, midCap: real, smallCap: real, gold: real, crypto: real, bonds: real): Table
  {
    [Entry("Large Cap", largeCap), Entry("Mid Cap", midCap), Entry("Small Cap", smallCap),
     Entry("Gold", gold), Entry("ETFs/Crypto", crypto), Entry("Bonds/Fixed Income", bonds)]
  }

  const ShortTermLow: Table := GoalTable(30.0, 15.0, 5.0, 15.0, 5.0, 30.0)
  const ShortTermMedium: Table := GoalTable(40.0, 20.0, 10.0, 10.0, 5.0, 15.0)
  const ShortTermHigh: Table := GoalTable(40.0, 25.0, 20.0, 5.0, 10.0, 0.0)
  const MediumTermLow: Table := GoalTable(35.0, 20.0, 10.0, 10.0, 5.0, 20.0)
  const MediumTermMedium: Table := GoalTable(35.0, 30.0, 20.0, 5.0, 5.0, 5.0)
  const MediumTermHigh: Table := GoalTable(25.0, 30.0, 30.0, 5.0, 10.0, 0.0)
  const LongTermLow: Table := GoalTable(40.0, 25.0, 15.0, 10.0, 5.0, 5.0)
  const LongTermMedium: Table := GoalTable(30.0, 30.0, 25.0, 5.0, 10.0, 0.0)
  /** The long-term high-risk table lists "ETFs/Crypto" before "Gold". */
  const LongTermHigh: Table := [
    Entry("Large Cap", 20.0), Entry("Mid Cap", 30.0), Entry("Small Cap", 35.0),
    Entry("ETFs/Crypto", 15.0), Entry("Gold", 0.0), Entry("Bonds/Fixed Income", 0.0)]

  /** `get_goal_based_allocation`: the bucket of the timeline first, then the risk level within it.
      Every table lists the six goal categories, all in the same order except the long-term
      high-risk one. */
  function GoalBasedAllocation(riskLevel: string, timelineYears: int): (r: Table)
    ensures SixCategoryKeys(r)
    ensures Keys(r)[3] == "ETFs/Crypto" <==> timelineYears >= 15 && TierOf(riskLevel) == HighRisk
  {
    match TimelineOf(timelineYears)
    case ShortTerm => ByRisk(riskLevel, ShortTermLow, ShortTermMedium, ShortTermHigh)
    case MediumTerm => ByRisk(riskLevel, MediumTermLow, MediumTermMedium, MediumTermHigh)
    case LongTerm => ByRisk(riskLevel, LongTermLow, LongTermMedium, LongTermHigh)
  }

  /** The table of a bucket for the risk level, the high-risk one for any level but "Low" and "Medium". */
  function ByRisk(riskLevel: string, low: Table, medium: Table, high: Table): Table
  {
    match TierOf(riskLevel)
    case LowRisk => low
    case MediumRisk => medium
    case HighRisk => high
  }

  /** A goal table covers the six categories once each with non-negative percentages adding up to 100. */
  ghost predicate IsGoalTable(t: Table)
  {
    && DistinctKeys(t)
    && (forall c :: HasKey(t, c) <==> c in GoalCategories)
    && (forall i :: 0 <= i < |t| ==> t[i].value >= 0.0)
    && Sum(t) == 100.0
  }

  lemma SumOfSix(t: Table)
    requires |t| == 6
    ensures Sum(t) == t[0].value + t[1].value + t[2].value + t[3].value + t[4].value + t[5].value
  {
    SumPrefixStep(t, 0);
    SumPrefixStep(t, 1);
    SumPrefixStep(t, 2);
    SumPrefixStep(t, 3);
    SumPrefixStep(t, 4);
    SumPrefixStep(t, 5);
    assert t[..0] == [] && t[..6] == t;
  }

  predicate SixCategoryKeys(t: Table)
  {
    |t| == 6
    && (Keys(t) == ["Large Cap", "Mid Cap", "Small Cap", "Gold", "ETFs/Crypto", "Bonds/Fixed Income"]
     || Keys(t) == ["Large Cap", "Mid Cap", "Small Cap", "ETFs/Crypto", "Gold", "Bonds/Fixed Income"])
  }

  lemma SixCategoryTable(t: Table)
    requires SixCategoryKeys(t)
    ensures DistinctKeys(t)
    ensures forall c :: HasKey(t, c) <==> c in GoalCategories
  {
    SixCategoriesCovered(t);
    SixCategoriesDistinct(t);
  }

  lemma SixCategoriesCovered(t: Table)
    requires SixCategoryKeys(t)
    ensures forall c :: HasKey(t, c) <==> c in GoalCategories
  {
    var ks := Keys(t);
    assert forall i :: 0 <= i < 6 ==> ks[i] in GoalCategories;
    forall c | c in GoalCategories ensures HasKey(t, c) {
      if c == ks[0] { assert t[0].key == c; }
      else if c == ks[1] { assert t[1].key == c; }
      else if c == ks[2] { assert t[2].key == c; }
      else if c == ks[3] { assert t[3].key == c; }
      else if c == ks[4] { assert t[4].key == c; }
      else { assert t[5].key == c; }
    }
  }

  lemma SixCategoriesDistinct(t: Table)
    requires SixCategoryKeys(t)
    ensures DistinctKeys(t)
  {
    var ks := Keys(t);
    forall i, j | 0 <= i < j < 6 ensures t[i].key != t[j].key {
      assert ks[i] != ks[j];
    }
  }

  /** A table built by `GoalTable` from non-negative percentages adding up to 100 is a goal table. */
  lemma GoalTableWellFormed(largeCap: real, midCap: real, smallCap: real, gold: real, crypto: real, bonds: real)
    requires largeCap >= 0.0 && midCap >= 0.0 && smallCap >= 0.0 && gold >= 0.0 && crypto >= 0.0 && bonds >= 0.0
    requires largeCap + midCap + smallCap + gold + crypto + bonds == 100.0
    ensures IsGoalTable(GoalTable(largeCap, midCap, smallCap, gold, crypto, bonds))
  {
    var t := GoalTable(largeCap, midCap, smallCap, gold, crypto, bonds);
    SixCategoryTable(t);
    SumOfSix(t);
  }

  lemma LongTermHighWellFormed()
    ensures IsGoalTable(LongTermHigh)
  {
    SixCategoryTable(LongTermHigh);
    SumOfSix(LongTermHigh);
  }

  lemma ShortTermTablesWellFormed()
    ensures IsGoalTable(ShortTermLow) && IsGoalTable(ShortTermMedium) && IsGoalTable(ShortTermHigh)
  {
    GoalTableWellFormed(30.0, 15.0, 5.0, 15.0, 5.0, 30.0);
    GoalTableWellFormed(40.0, 20.0, 10.0, 10.0, 5.0, 15.0);
    GoalTableWellFormed(40.0, 25.0, 20.0, 5.0, 10.0, 0.0);
  }

  lemma MediumTermTablesWellFormed()
    ensures IsGoalTable(MediumTermLow) && IsGoalTable(MediumTermMedium) && IsGoalTable(MediumTermHigh)
  {
    GoalTableWellFormed(35.0, 20.0, 10.0, 10.0, 5.0, 20.0);
    GoalTableWellFormed(35.0, 30.0, 20.0, 5.0, 5.0, 5.0);
    GoalTableWellFormed(25.0, 30.0, 30.0, 5.0, 10.0, 0.0);
  }

  lemma LongTermTablesWellFormed()
    ensures IsGoalTable(LongTermLow) && IsGoalTable(LongTermMedium) && IsGoalTable(LongTermHigh)
  {
    GoalTableWellFormed(40.0, 25.0, 15.0, 10.0, 5.0, 5.0);
    GoalTableWellFormed(30.0, 30.0, 25.0, 5.0, 10.0, 0.0);
    LongTermHighWellFormed();
  }

  lemma ByRiskWellFormed(riskLevel: string, low: Table, medium: Table, high: Table)
    requires IsGoalTable(low) && IsGoalTable(medium) && IsGoalTable(high)
    ensures IsGoalTable(ByRisk(riskLevel, low, medium, high))
  {
  }

  /** Whatever the risk level and timeline, the table returned covers the six categories once each,
      with non-negative percentages that add up to exactly 100. */
  lemma GoalAllocationWellFormed(riskLevel: string, timelineYears: int)
    ensures IsGoalTable(GoalBasedAllocation(riskLevel, timelineYears))
  {
    match TimelineOf(timelineYears)
    case ShortTerm =>
      assert GoalBasedAllocation(riskLevel, timelineYears) == ByRisk(riskLevel, ShortTermLow, ShortTermMedium, ShortTermHigh);
      ShortTermTablesWellFormed();
      ByRiskWellFormed(riskLevel, ShortTermLow, ShortTermMedium, ShortTermHigh);
    case MediumTerm =>
      assert GoalBasedAllocation(riskLevel, timelineYears) == ByRisk(riskLevel, MediumTermLow, MediumTermMedium, MediumTermHigh);
      MediumTermTablesWellFormed();
      ByRiskWellFormed(riskLevel, MediumTermLow, MediumTermMedium, MediumTermHigh);
    case LongTerm =>
      assert GoalBasedAllocation(riskLevel, timelineYears) == ByRisk(riskLevel, LongTermLow, LongTermMedium, LongTermHigh);
      LongTermTablesWellFormed();
      ByRiskWellFormed(riskLevel, LongTermLow, LongTermMedium, LongTermHigh);
  }

  /** The bucket boundaries: 4 years is short, 5 and 14 are medium, 15 is long; an unknown risk
      level gets the high-risk table of its bucket. */
  lemma BucketBoundaries()
    ensures GoalBasedAllocation("Low", 4) == ShortTermLow
    ensures GoalBasedAllocation("Low", 5) == MediumTermLow
    ensures GoalBasedAllocation("Low", 14) == MediumTermLow
    ensures GoalBasedAllocation("Low", 15) == LongTermLow
    ensures GoalBasedAllocation("High", 0) == ShortTermHigh
    ensures GoalBasedAllocation("low", 10) == MediumTermHigh
  {
    assert "low" != "Low" && "low" != "Medium" by {
      assert "low"[0] != "Low"[0];
      assert |"low"| != |"Medium"|;
    }
    assert "High" != "Low" && "High" != "Medium" by {
      assert "High"[0] != "Low"[0];
      assert |"High"| != |"Medium"|;
    }
  }

  /** `get_expected_return_rate`: 6% for "Low", 8% for "Medium", 10% for anything else. */
  function ExpectedReturnRate(riskLevel: string): (r: real)
    ensures r == 0.06 <==> TierOf(riskLevel) == LowRisk
    ensures r == 0.08 <==> TierOf(riskLevel) == MediumRisk
    ensures r == 0.10 <==> TierOf(riskLevel) == HighRisk
  {
    if riskLevel == "Low" then 0.06 else if riskLevel == "Medium" then 0.08 else 0.10
  }

  /** `calculate_goal_progress_percentage`: 0 for a target that is not positive, otherwise the
      current amount as a percentage of the target, capped at 100. */
  function GoalProgressPercentage(current: real, target: real): (r: real)
    ensures target <= 0.0 ==> r == 0.0
    ensures r <= 100.0
    ensures target > 0.0 ==> (r == 100.0 <==> current >= target)
    ensures target > 0.0 && current >= 0.0 ==> r >= 0.0
  {
    if target <= 0.0 then 0.0 else Min(100.0, PercentOfTarget(current, target))
  }

  /** `(current_amount / target_amount) * 100`. */
  function PercentOfTarget(current: real, target: real): (p: real)
    requires target > 0.0
    ensures p >= 100.0 <==> current >= target
    ensures current >= 0.0 ==> p >= 0.0
  {
    (current / target) * 100.0
  }

  // ---------------------------------------------------------------------------
  // Monthly investment

  /** Python's `base ** exponent` for an integer exponent: a negative exponent divides, and
      zero raised to a negative power raises `ZeroDivisionError`. */
  function PythonPow(base: real, exponent: int): Result<real, PythonError>
  {
    if base == 0.0 && exponent < 0 then Err(ZeroDivisionError) else Ok(IntPow(base, exponent))
  }

  /** `calculate_monthly_investment_needed` as written: the shortfall left after compounding the
      current amount annually, spread over `years * 12` months by `Instalment`. */
  function MonthlyInvestmentNeeded(target: real, current: real, years: int, rate: real): (r: Result<real, PythonError>)
    ensures rate != 0.0 && r.Ok? ==> r.value >= 0.0
    ensures years == 0 ==> r == Err(ZeroDivisionError)
  {
    var growth := PythonPow(1.0 + rate, years);
    if growth.Err? then Err(ZeroDivisionError)
    else Instalment(target - current * growth.value, rate / 12.0, years * 12)
  }

  /** The second half of `calculate_monthly_investment_needed`: with a zero monthly rate the amount
      needed divided by the months, otherwise the annuity payment
      `amount_needed * monthly_rate / (1 - (1 + monthly_rate) ** -months)` clamped at zero. */
  function Instalment(amountNeeded: real, monthlyRate: real, months: int): (r: Result<real, PythonError>)
    ensures monthlyRate != 0.0 && r.Ok? ==> r.value >= 0.0
    ensures months == 0 ==> r == Err(ZeroDivisionError)
  {
    if monthlyRate == 0.0 then
      if months == 0 then Err(ZeroDivisionError) else Ok(amountNeeded / months as real)
    else
      var discount := PythonPow(1.0 + monthlyRate, -months);
      if discount.Err? then Err(ZeroDivisionError)
      else if discount.value == 1.0 then Err(ZeroDivisionError)
      else Ok(Max(0.0, AnnuityPayment(amountNeeded, monthlyRate, discount.value)))
  }

  /** `(amount_needed * monthly_rate) / (1 - discount)`, the payment of an annuity whose
      present value is `amountNeeded`, where `discount` is `(1 + monthly_rate) ** -months`. */
  function AnnuityPayment(amountNeeded: real, monthlyRate: real, discount: real): real
    requires discount != 1.0
  {
    amountNeeded * monthlyRate / (1.0 - discount)
  }

  /** Over a whole, non-negative number of years the shortfall is the target less the current
      amount compounded annually. */
  lemma ShortfallForm(target: real, current: real, years: nat, rate: real)
    ensures MonthlyInvestmentNeeded(target, current, years, rate)
      == Instalment(target - Compound(current, rate, years), rate / 12.0, years * 12)
  {
    assert !PythonPow(1.0 + rate, years).Err?;
    assert MonthlyInvestmentNeeded(target, current, years, rate)
      == Instalment(target - current * PythonPow(1.0 + rate, years).value, rate / 12.0, years * 12);
    assert current * PythonPow(1.0 + rate, years).value == Compound(current, rate, years);
  }

  /** The balance after `months` end-of-month deposits of `payment`, each month's balance growing
      by `monthlyRate` first. */
  function SavingsAfter(payment: real, monthlyRate: real, months: nat): real
  {
    if months == 0 then 0.0 else SavingsAfter(payment, monthlyRate, months - 1) * (1.0 + monthlyRate) + payment
  }

  /** `savings * rate == payment * (growth - 1)`: the closed form of end-of-month deposits. */
  ghost predicate ClosedForm(savings: real, payment: real, rate: real, growth: real)
  {
    savings * rate == payment * (growth - 1.0)
  }

  lemma SavingsStep(s: real, payment: real, rate: real, g: real, s': real, g': real)
    requires ClosedForm(s, payment, rate, g)
    requires s' == s * (1.0 + rate) + payment && g' == (1.0 + rate) * g
    ensures ClosedForm(s', payment, rate, g')
  {
  }

  /** The closed form of the deposits: `savings * r == payment * ((1 + r) ** months - 1)`. */
  lemma {:induction false} SavingsClosedForm(payment: real, monthlyRate: real, months: nat)
    ensures ClosedForm(SavingsAfter(payment, monthlyRate, months), payment, monthlyRate, Pow(1.0 + monthlyRate, months))
  {
    if months == 0 {
      assert SavingsAfter(payment, monthlyRate, months) == 0.0 && Pow(1.0 + monthlyRate, months) == 1.0;
    } else {
      var s, g := SavingsAfter(payment, monthlyRate, months - 1), Pow(1.0 + monthlyRate, months - 1);
      var s', g' := SavingsAfter(payment, monthlyRate, months), Pow(1.0 + monthlyRate, months);
      assert s' == s * (1.0 + monthlyRate) + payment;
      assert g' == (1.0 + monthlyRate) * g;
      SavingsClosedForm(payment, monthlyRate, months - 1);
      SavingsStep(s, payment, monthlyRate, g, s', g');
    }
  }

  lemma ProductSign(a: real, b: real)
    requires b > 0.0
    ensures a * b > 0.0 <==> a > 0.0
  {
    if a > 0.0 {
      ScaleStrict(0.0, a, b);
    } else {
      ScaleMonotone(a, 0.0, b);
    }
  }

  lemma PaymentSign(amountNeeded: real, monthlyRate: real, discount: real)
    requires monthlyRate > 0.0 && discount < 1.0
    ensures AnnuityPayment(amountNeeded, monthlyRate, discount) > 0.0 <==> amountNeeded > 0.0
  {
    var p := AnnuityPayment(amountNeeded, monthlyRate, discount);
    assert p * (1.0 - discount) == amountNeeded * monthlyRate;
    ProductSign(p, 1.0 - discount);
    ProductSign(amountNeeded, monthlyRate);
  }

  /** With a positive monthly rate over at least one month, the instalment is the annuity payment
      against the discount `1 / g`, where `g = (1 + monthly_rate) ** months` exceeds 1. */
  lemma PositiveRateInstalment(amountNeeded: real, monthlyRate: real, months: int)
    requires monthlyRate > 0.0 && months > 0
    ensures var g := Pow(1.0 + monthlyRate, months);
      && g > 1.0 && 0.0 < 1.0 / g < 1.0
      && Instalment(amountNeeded, monthlyRate, months) == Ok(Max(0.0, AnnuityPayment(amountNeeded, monthlyRate, 1.0 / g)))
  {
    var g := Pow(1.0 + monthlyRate, months);
    PowAboveOne(1.0 + monthlyRate, months);
    assert PythonPow(1.0 + monthlyRate, -months) == Ok(1.0 / g);
  }

  /** With a positive rate over at least one year the result is positive exactly when the current
      amount, compounded annually, falls short of the target, and 0 otherwise. */
  lemma PaymentZeroExactlyWhenCovered(target: real, current: real, years: int, rate: real)
    requires rate > 0.0 && years > 0
    ensures var r := MonthlyInvestmentNeeded(target, current, years, rate);
      && r.Ok?
      && (r.value == 0.0 <==> Compound(current, rate, years) >= target)
      && (r.value > 0.0 <==> Compound(current, rate, years) < target)
  {
    var shortfall := target - Compound(current, rate, years);
    ShortfallForm(target, current, years, rate);
    PositiveRateInstalment(shortfall, rate / 12.0, years * 12);
    PaymentSign(shortfall, rate / 12.0, 1.0 / Pow(1.0 + rate / 12.0, years * 12));
  }

  /** With a zero rate the shortfall is divided evenly over the months and not clamped. */
  lemma ZeroRateSpreadsShortfall(target: real, current: real, years: int)
    requires years != 0
    ensures MonthlyInvestmentNeeded(target, current, years, 0.0) == Ok((target - current) / (years * 12) as real)
  {
    if years >= 0 {
      PowOfOne(years);
      assert PythonPow(1.0, years) == Ok(Pow(1.0, years));
    } else {
      PowOfOne(-years);
      assert PythonPow(1.0, years) == Ok(1.0 / Pow(1.0, -years));
    }
    var growth := PythonPow(1.0 + 0.0, years);
    assert growth == Ok(1.0);
    assert MonthlyInvestmentNeeded(target, current, years, 0.0)
      == Instalment(target - current * growth.value, 0.0 / 12.0, years * 12);
    assert target - current * growth.value == target - current;
    assert Instalment(target - current, 0.0, years * 12) == Ok((target - current) / (years * 12) as real);
  }

  /** A zero rate and a current amount above the target give a negative monthly investment. */
  lemma ZeroRateCanBeNegative()
    ensures MonthlyInvestmentNeeded(100.0, 200.0, 1, 0.0) == Ok(-100.0 / 12.0)
    ensures MonthlyInvestmentNeeded(100.0, 200.0, 1, 0.0).value < 0.0
  {
    ZeroRateSpreadsShortfall(100.0, 200.0, 1);
  }

  lemma AnnuityOvershoot(amountNeeded: real, monthlyRate: real, g: real, payment: real, s: real)
    requires monthlyRate > 0.0 && g > 1.0
    requires payment == AnnuityPayment(amountNeeded, monthlyRate, 1.0 / g)
    requires ClosedForm(s, payment, monthlyRate, g)
    ensures s == amountNeeded * g
  {
    assert payment * (1.0 - 1.0 / g) == amountNeeded * monthlyRate;
    assert payment * (g - 1.0) == amountNeeded * monthlyRate * g;
  }

  /** As written, depositing the instalment every month accumulates the amount needed grown by
      `g = (1 + monthly_rate) ** months`, which exceeds the amount whenever it and the rate are
      positive: the annuity formula prices a loan of the amount, not savings towards it. */
  lemma InstalmentOvershoots(amountNeeded: real, monthlyRate: real, months: int)
    requires monthlyRate > 0.0 && months > 0 && amountNeeded > 0.0
    ensures var r := Instalment(amountNeeded, monthlyRate, months);
      && r.Ok?
      && SavingsAfter(r.value, monthlyRate, months) == amountNeeded * Pow(1.0 + monthlyRate, months)
      && SavingsAfter(r.value, monthlyRate, months) > amountNeeded
  {
    var g := Pow(1.0 + monthlyRate, months);
    PositiveRateInstalment(amountNeeded, monthlyRate, months);
    var p := AnnuityPayment(amountNeeded, monthlyRate, 1.0 / g);
    PaymentSign(amountNeeded, monthlyRate, 1.0 / g);
    assert Instalment(amountNeeded, monthlyRate, months) == Ok(p);
    var s := SavingsAfter(p, monthlyRate, months);
    SavingsClosedForm(p, monthlyRate, months);
    AnnuityOvershoot(amountNeeded, monthlyRate, g, p, s);
    ScaleStrict(1.0, g, amountNeeded);
  }

  /** Saving 12 000 over one year at 12% from nothing: the deposits the source asks for add up
      to more than 12 000. */
  lemma OvershootExample()
    ensures var r := MonthlyInvestmentNeeded(12000.0, 0.0, 1, 0.12);
      r.Ok? && SavingsAfter(r.value, 0.01, 12) > 12000.0
  {
    ShortfallForm(12000.0, 0.0, 1, 0.12);
    assert Compound(0.0, 0.12, 1) == 0.0;
    InstalmentOvershoots(12000.0, 0.01, 12);
  }

  /** `amount_needed * monthly_rate / ((1 + monthly_rate) ** months - 1)`, the deposit whose
      future value is `amountNeeded`. */
  function SinkingFundPayment(amountNeeded: real, monthlyRate: real, growth: real): real
    requires growth != 1.0
  {
    amountNeeded * monthlyRate / (growth - 1.0)
  }

  /** The monthly investment with the savings formula in place of the annuity formula. */
  function MonthlyInvestmentToReach(target: real, current: real, years: int, rate: real): (r: Result<real, PythonError>)
    ensures rate != 0.0 && r.Ok? ==> r.value >= 0.0
    ensures years == 0 ==> r == Err(ZeroDivisionError)
  {
    var growth := PythonPow(1.0 + rate, years);
    if growth.Err? then Err(ZeroDivisionError)
    else SavingsInstalment(target - current * growth.value, rate / 12.0, years * 12)
  }

  /** The deposit that grows to the amount needed: the amount divided by the months when the rate
      is zero, otherwise the sinking-fund payment clamped at zero. */
  function SavingsInstalment(amountNeeded: real, monthlyRate: real, months: int): (r: Result<real, PythonError>)
    ensures monthlyRate != 0.0 && r.Ok? ==> r.value >= 0.0
    ensures months == 0 ==> r == Err(ZeroDivisionError)
  {
    if monthlyRate == 0.0 then
      if months == 0 then Err(ZeroDivisionError) else Ok(amountNeeded / months as real)
    else
      var growth := PythonPow(1.0 + monthlyRate, months);
      if growth.Err? then Err(ZeroDivisionError)
      else if growth.value == 1.0 then Err(ZeroDivisionError)
      else Ok(Max(0.0, SinkingFundPayment(amountNeeded, monthlyRate, growth.value)))
  }

  lemma SinkingFundExact(amountNeeded: real, monthlyRate: real, g: real, s: real)
    requires monthlyRate > 0.0 && g > 1.0
    requires ClosedForm(s, SinkingFundPayment(amountNeeded, monthlyRate, g), monthlyRate, g)
    ensures s == amountNeeded
    ensures SinkingFundPayment(amountNeeded, monthlyRate, g) > 0.0 <==> amountNeeded > 0.0
  {
    var p := SinkingFundPayment(amountNeeded, monthlyRate, g);
    assert p * (g - 1.0) == amountNeeded * monthlyRate;
    ProductSign(p, g - 1.0);
    ProductSign(amountNeeded, monthlyRate);
  }

  /** With the savings formula, depositing the instalment every month accumulates exactly the
      amount needed when it is positive; nothing is asked for otherwise. */
  lemma SavingsInstalmentReaches(amountNeeded: real, monthlyRate: real, months: int)
    requires monthlyRate > 0.0 && months > 0
    ensures var r := SavingsInstalment(amountNeeded, monthlyRate, months);
      && r.Ok?
      && (amountNeeded > 0.0 ==> SavingsAfter(r.value, monthlyRate, months) == amountNeeded)
      && (amountNeeded <= 0.0 ==> r.value == 0.0)
  {
    var g := Pow(1.0 + monthlyRate, months);
    PowAboveOne(1.0 + monthlyRate, months);
    assert PythonPow(1.0 + monthlyRate, months) == Ok(g);
    var p := SinkingFundPayment(amountNeeded, monthlyRate, g);
    SavingsClosedForm(p, monthlyRate, months);
    SinkingFundExact(amountNeeded, monthlyRate, g, SavingsAfter(p, monthlyRate, months));
  }

  /** With the savings formula, the current amount's growth plus the deposits reach the target
      exactly when there is a shortfall, and nothing is asked for otherwise. */
  lemma CorrectedReachesTarget(target: real, current: real, years: int, rate: real)
    requires rate > 0.0 && years > 0
    ensures var r := MonthlyInvestmentToReach(target, current, years, rate);
      var shortfall := target - Compound(current, rate, years);
      && r.Ok?
      && (shortfall > 0.0 ==> Compound(current, rate, years) + SavingsAfter(r.value, rate / 12.0, years * 12) == target)
      && (shortfall <= 0.0 ==> r.value == 0.0)
  {
    assert !PythonPow(1.0 + rate, years).Err?;
    assert MonthlyInvestmentToReach(target, current, years, rate)
      == SavingsInstalment(target - current * PythonPow(1.0 + rate, years).value, rate / 12.0, years * 12);
    assert current * PythonPow(1.0 + rate, years).value == Compound(current, rate, years);
    SavingsInstalmentReaches(target - Compound(current, rate, years), rate / 12.0, years * 12);
  }
}
