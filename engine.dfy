/**
 * The recommendation engine of calculatePlan: the primary tier chain, then
 * the supplementary rules, building the list in place with push and unshift.
 */
module Engine {
  import opened Numeric
  import opened Sorting
  import opened Optional
  import opened Household
  import opened Aggregation
  import opened DebtPlanner
  import opened Amortisation
  import opened Projection
  import opened Tiers
  import opened Recommendations

  /** What the tier guards read from the snapshot. */
  function StandingOf(f: Finances): (s: Standing)
    ensures s.totalNonMortgageDebt == TotalAmount(AvalancheOrder(f))
    ensures s.currentSavings == f.currentSavings
    ensures s.recommendedEmergencyFund == Aggregate(f).recommendedEmergencyFund
    ensures s.savingsRate == Aggregate(f).savingsRate
  {
    TotalsSplit(f);
    Standing(f.currentSavings, TotalAmount(AvalancheOrder(f)),
             Aggregate(f).recommendedEmergencyFund, Aggregate(f).savingsRate)
  }

  /** Name of the avalanche target, if any. */
  function FirstDebtName(debts: seq<DebtEntry>): Option<string>
  {
    if |debts| > 0 then Some(debts[0].name) else None
  }

  predicate IsAttackOrder(r: Recommendation) { r.detail.AttackOrder? }
  predicate IsExcessSavings(r: Recommendation) { r.detail.ExcessSavings? }
  predicate IsNegativeSavings(r: Recommendation) { r.detail.NegativeSavings? }
  predicate IsHousing(r: Recommendation) { r.detail.HousingCost? }
  predicate IsSubscription(r: Recommendation) { r.detail.SubscriptionCost? }
  predicate IsSubsidio(r: Recommendation) { r.detail.SubsidioStrategy? }

  /** The interest the original estimate implies: a month's interest on the
      full amount, for every month of the estimate. */
  function OriginalInterest(d: DebtEntry): real
  {
    d.amount * (d.rate / 100.0 / 12.0) * (d.months as real)
  }

  /** The figures of the debt-elimination recommendation, as the simulation
      and the snowball chain determine them. */
  ghost predicate DebtPlanSound(f: Finances, d: Detail)
  {
    var debts := AvalancheOrder(f);
    && d.DebtPlan?
    && |debts| > 0
    && d.debtCount == |debts|
    && d.totalNonMortgageDebt == TotalAmount(debts)
    && d.target == debts[0]
    && d.extraPayment == Max(Aggregate(f).monthlyDisposable * 0.5, 100.0)
    && d.extraPayment >= 100.0
    && d.newMonthlyPayment == d.target.payment + d.extraPayment
    && d.originalMonths == d.target.months
    && d.originalInterest == OriginalInterest(d.target)
    && d.payoff == Accelerated(d.target.amount, d.newMonthlyPayment, d.target.rate / 100.0 / 12.0)
    && d.interestSaved == d.originalInterest - d.payoff.interest
    && d.monthsSaved == MonthsSaved(d.originalMonths, d.payoff)
    && d.monthsToDebtFree == ReportedMonths(d.payoff) + SnowballMonths(debts[1..], d.newMonthlyPayment)
    && d.monthsToDebtFree >= ReportedMonths(d.payoff)
    && d.freedPayment == TotalPayment(debts)
    && d.otherMinimums == TotalPayment(debts) - d.target.payment
  }

  /** The figures of the optimisation recommendation: the first year within
      the cap whose balance reaches 25 years of expenses, or the cap. */
  ghost predicate OptimizePlanSound(f: Finances, d: Detail)
  {
    var a := Aggregate(f);
    var yearly := a.monthlyDisposable * 12.0;
    && d.OptimizePlan?
    && d.monthlyInvestment == a.monthlyDisposable
    && d.futureValue30 == Compounded(0.0, yearly, ProjectionYears)
    && d.retirementNeeds == a.totalMonthlyExpenses * 12.0 * IndependenceMultiple
    && d.yearsToFI <= MaxYears
    && (d.reachedTarget <==> Compounded(f.currentSavings, yearly, d.yearsToFI) >= d.retirementNeeds)
    && (d.reachedTarget || d.yearsToFI == MaxYears)
    && (forall k :: 0 <= k < d.yearsToFI ==> Compounded(f.currentSavings, yearly, k) < d.retirementNeeds)
    && d.retirementAge == AssumedAge + d.yearsToFI
  }

  /** The age the optimisation tier assumes for the household. */
  const AssumedAge: nat := 30

  /** Tier 2: attack the highest-rate debt with the extra payment, then roll
      every freed payment into the next debt. */
  method DebtEliminationAdvice(f: Finances) returns (rec: Recommendation)
    requires TotalAmount(AvalancheOrder(f)) > 0.0
    ensures rec.priority == Critica && rec.step == Passo2 && DebtPlanSound(f, rec.detail)
  {
    var a := Aggregate(f);
    var allDebts := AvalancheOrder(f);
    PositiveTotalHasTarget(allDebts);
    var highestInterestDebt := allDebts[0];
    var extraPayment := Max(a.monthlyDisposable * 0.5, 100.0);
    var newMonthlyPayment := highestInterestDebt.payment + extraPayment;
    var originalMonths := highestInterestDebt.months;
    var originalInterest := OriginalInterest(highestInterestDebt);
    var monthlyRate := highestInterestDebt.rate / 100.0 / 12.0;
    var payoff := Amortise(highestInterestDebt.amount, newMonthlyPayment, monthlyRate);
    var interestSaved := originalInterest - payoff.interest;
    var totalMonthsToDebtFree, _ := Snowball(allDebts, ReportedMonths(payoff), newMonthlyPayment);
    var totalDebtPayment := TotalPayment(allDebts);
    rec := Recommendation(Critica, Passo2,
      DebtPlan(|allDebts|, TotalAmount(allDebts), highestInterestDebt, extraPayment, newMonthlyPayment,
               originalMonths, originalInterest, payoff, MonthsSaved(originalMonths, payoff),
               interestSaved, totalMonthsToDebtFree, totalDebtPayment - highestInterestDebt.payment,
               totalDebtPayment));
  }

  /** Tier 5: keep investing; 30-year projection and years to financial independence. */
  method OptimizeAdvice(f: Finances) returns (rec: Recommendation)
    ensures rec.priority == Baixa && rec.step == Parabens && OptimizePlanSound(f, rec.detail)
  {
    var a := Aggregate(f);
    var monthlyInvestment := a.monthlyDisposable;
    var yearlyInvestment := monthlyInvestment * 12.0;
    var futureValue30 := AnnuityValue(yearlyInvestment, ProjectionYears);
    CompoundedClosedForm(0.0, yearlyInvestment, ProjectionYears);
    var retirementNeeds := a.totalMonthlyExpenses * 12.0 * IndependenceMultiple;
    var yearsToFI, accumulated := YearsToIndependence(f.currentSavings, yearlyInvestment, retirementNeeds);
    rec := Recommendation(Baixa, Parabens,
      OptimizePlan(monthlyInvestment, futureValue30, retirementNeeds, yearsToFI,
                   accumulated >= retirementNeeds, AssumedAge + yearsToFI));
  }

  /** The five-branch chain of lines 205-411: one primary recommendation,
      followed by the attack order when several debts are left. */
  method PrimaryRecommendations(f: Finances) returns (recs: seq<Recommendation>)
    ensures 1 <= |recs| <= 2
    ensures IsPrimary(recs[0]) && TierOf(recs[0].detail) == Classify(StandingOf(f))
    ensures recs[0].priority != Emergencia
    ensures recs[0].priority == PriorityOf(recs[0].detail) && recs[0].step == StepOf(recs[0].detail)
    ensures |recs| == 2 <==> Classify(StandingOf(f)) == Some(DebtElimination) && |AvalancheOrder(f)| > 1
    ensures |recs| == 2 ==> recs[1] == Recommendation(Alta, Passo2Continuacao, AttackOrder(AvalancheOrder(f)))
    ensures PayloadSound(f, recs[0].detail)
  {
    var a := Aggregate(f);
    var allDebts := AvalancheOrder(f);
    var s := StandingOf(f);
    ChainIsExhaustive(s);
    recs := [];
    if s.currentSavings < StarterFundTarget {
      assert Classify(s) == Some(StarterFund);
      recs := recs + [StarterFundAdvice(s.currentSavings, a.monthlyDisposable)];
    } else if s.totalNonMortgageDebt > 0.0 && s.currentSavings >= StarterFundTarget {
      assert Classify(s) == Some(DebtElimination);
      var plan := DebtEliminationAdvice(f);
      recs := recs + [plan];
      if |allDebts| > 1 {
        recs := recs + [Recommendation(Alta, Passo2Continuacao, AttackOrder(allDebts))];
      }
    } else if s.currentSavings < s.recommendedEmergencyFund && s.totalNonMortgageDebt == 0.0 {
      assert Classify(s) == Some(FullEmergencyFund);
      recs := recs + [EmergencyFundAdvice(s.currentSavings, s.recommendedEmergencyFund, a.monthlyDisposable,
                                          a.totalInvestments)];
    } else if s.savingsRate < TargetSavingsRate && s.currentSavings >= s.recommendedEmergencyFund
              && s.totalNonMortgageDebt == 0.0 {
      assert Classify(s) == Some(Invest15);
      recs := recs + [InvestAdvice(a.averageMonthlyIncome, a.monthlyDisposable, a.totalInvestments)];
    } else {
      assert Classify(s) == Some(Optimize);
      var plan := OptimizeAdvice(f);
      recs := recs + [plan];
    }
  }

  /** `[r]` when the rule fires, else nothing. */
  function When(fires: bool, r: Recommendation): seq<Recommendation>
  {
    if fires then [r] else []
  }

  lemma CountWhen(fires: bool, r: Recommendation, p: Recommendation -> bool)
    ensures CountBy(When(fires, r), p) == if fires && p(r) then 1 else 0
  {
    if fires {
      assert [r][1..] == [];
    }
  }

  lemma CountPrimary(primary: seq<Recommendation>, p: Recommendation -> bool)
    requires 1 <= |primary| <= 2
    ensures CountBy(primary, p)
            == (if p(primary[0]) then 1 else 0) + (if |primary| == 2 && p(primary[1]) then 1 else 0)
  {
    if |primary| == 2 {
      assert primary[1..][1..] == [];
    } else {
      assert primary[1..] == [];
    }
  }

  function Bit(b: bool): nat { if b then 1 else 0 }

  /** Counting one kind of recommendation across the primary recommendations
      and the five supplementary rules, in the order the list is built. */
  lemma CountSegments(primary: seq<Recommendation>, r0: Recommendation, r1: Recommendation, r2: Recommendation,
                      r3: Recommendation, r4: Recommendation, c0: bool, c1: bool, c2: bool, c3: bool, c4: bool,
                      p: Recommendation -> bool)
    ensures CountBy(When(c0, r0) + primary + When(c1, r1) + When(c2, r2) + When(c3, r3) + When(c4, r4), p)
            == CountBy(primary, p) + Bit(c0 && p(r0)) + Bit(c1 && p(r1)) + Bit(c2 && p(r2))
               + Bit(c3 && p(r3)) + Bit(c4 && p(r4))
  {
    var s0, s1, s2, s3, s4 := When(c0, r0), When(c1, r1), When(c2, r2), When(c3, r3), When(c4, r4);
    CountByAppend(s0, primary, p);
    CountByAppend(s0 + primary, s1, p);
    CountByAppend(s0 + primary + s1, s2, p);
    CountByAppend(s0 + primary + s1 + s2, s3, p);
    CountByAppend(s0 + primary + s1 + s2 + s3, s4, p);
    CountWhen(c0, r0, p);
    CountWhen(c1, r1, p);
    CountWhen(c2, r2, p);
    CountWhen(c3, r3, p);
    CountWhen(c4, r4, p);
  }

  /** The excess-savings rule of line 415. */
  predicate ExcessSavingsFires(f: Finances)
  {
    var a := Aggregate(f);
    f.currentSavings - a.recommendedEmergencyFund > 1000.0
    && TotalAmount(AvalancheOrder(f)) == 0.0
    && f.currentSavings >= a.recommendedEmergencyFund
  }

  /** The figures each kind of recommendation carries, stated against the
      snapshot; a supplementary entry also carries the condition of its rule. */
  ghost predicate PayloadSound(f: Finances, d: Detail)
  {
    var a := Aggregate(f);
    match d
    case StarterFundPlan(needed, months) =>
      needed == StarterFundTarget - f.currentSavings && months == MonthsToSave(needed, a.monthlyDisposable)
    case DebtPlan(_, _, _, _, _, _, _, _, _, _, _, _, _) => DebtPlanSound(f, d)
    case AttackOrder(debts) => debts == AvalancheOrder(f)
    case EmergencyFundPlan(fund, needed, months, existing) =>
      && fund == a.recommendedEmergencyFund && needed == fund - f.currentSavings
      && months == MonthsToSave(needed, a.monthlyDisposable) && existing == a.totalInvestments
    case InvestPlan(target, saving, gap, yearly, future, existingFuture, total) =>
      && target == 0.15 * a.averageMonthlyIncome && saving == a.monthlyDisposable && gap == target - saving
      && yearly == 12.0 * target && future == Compounded(0.0, yearly, ProjectionYears)
      && existingFuture == Compounded(a.totalInvestments, 0.0, ProjectionYears) && total == future + existingFuture
    case OptimizePlan(_, _, _, _, _, _) => OptimizePlanSound(f, d)
    case ExcessSavings(excess, in10, in20, in30) =>
      && ExcessSavingsFires(f) && excess == f.currentSavings - a.recommendedEmergencyFund
      && in10 == Compounded(excess, 0.0, 10) && in20 == Compounded(excess, 0.0, 20)
      && in30 == Compounded(excess, 0.0, 30)
    case NegativeSavings(shortfall) =>
      a.savingsRate < 0.0 && shortfall == a.totalMonthlyExpenses - a.averageMonthlyIncome
    case HousingCost(ratio, freed) =>
      && ratio == a.housingRatio && ratio > 35.0
      && freed == 12.0 * (f.rent + f.condominium - 0.30 * a.averageMonthlyIncome)
    case SubscriptionCost(monthly, waste) =>
      f.subscriptions > a.averageMonthlyIncome * 0.05 && monthly == f.subscriptions && waste == 12.0 * monthly
    case SubsidioStrategy(total, use) =>
      && f.receivesSubsidios && total == a.subsidiosTotal
      && use == SubsidioUseFor(StandingOf(f), FirstDebtName(AvalancheOrder(f)))
  }

  /** What every entry of the list says about the snapshot: the primary one
      carries the tier the chain selects, only the overspending alert is an
      emergency, and every figure is the one the snapshot determines. */
  ghost predicate Consistent(f: Finances, r: Recommendation)
  {
    && (IsPrimary(r) ==> TierOf(r.detail) == Classify(StandingOf(f)))
    && r.priority == PriorityOf(r.detail) && r.step == StepOf(r.detail)
    && (r.priority == Emergencia <==> IsNegativeSavings(r))
    && PayloadSound(f, r.detail)
  }

  /** The excess-savings advice: what lies above the fund, projected at 7%. */
  function ExcessRule(f: Finances): (r: Recommendation)
    ensures r.priority == Media && IsExcessSavings(r)
    ensures ExcessSavingsFires(f) ==> r.detail.excess == f.currentSavings - Aggregate(f).recommendedEmergencyFund
    ensures r.detail.in10Years == Compounded(r.detail.excess, 0.0, 10)
    ensures r.detail.in20Years == Compounded(r.detail.excess, 0.0, 20)
    ensures r.detail.in30Years == Compounded(r.detail.excess, 0.0, 30)
  {
    var excess := f.currentSavings - Aggregate(f).recommendedEmergencyFund;
    ExcessSavingsAdvice(if excess >= 0.0 then excess else 0.0)
  }

  /** The overspending alert; the shortfall is `Math.abs(monthlyDisposable)`,
      which with a negative savings rate is what expenses exceed income by. */
  function AlertRule(f: Finances): (r: Recommendation)
    ensures r.priority == Emergencia && IsNegativeSavings(r)
    ensures Aggregate(f).savingsRate < 0.0 ==>
              && r.detail.monthlyShortfall == Aggregate(f).totalMonthlyExpenses - Aggregate(f).averageMonthlyIncome
              && r.detail.monthlyShortfall > 0.0
  {
    var disposable := Aggregate(f).monthlyDisposable;
    NegativeRateIffOverspending(f);
    Recommendation(Emergencia, Urgente, NegativeSavings(if disposable < 0.0 then -disposable else disposable))
  }

  /** The housing advice: a cut to 30% of income frees, per year, twelve
      months of what rent and condominium exceed that share by. */
  function HousingRule(f: Finances): (r: Recommendation)
    ensures r.priority == Media && IsHousing(r) && r.detail.housingRatio == Aggregate(f).housingRatio
    ensures Aggregate(f).housingRatio > 35.0 ==>
              && r.detail.savingsIfReduced == 12.0 * (f.rent + f.condominium - 0.30 * Aggregate(f).averageMonthlyIncome)
              && r.detail.savingsIfReduced > 0.0
  {
    var a := Aggregate(f);
    if a.housingRatio > 35.0 then
      HousingShare(f.rent + f.condominium, a.averageMonthlyIncome);
      HousingAdvice(a.housingRatio, a.averageMonthlyIncome)
    else
      HousingAdvice(a.housingRatio, a.averageMonthlyIncome)
  }

  /** With a positive income, the ratio's share of income is the housing cost itself. */
  lemma HousingShare(housing: real, income: real)
    requires income > 0.0
    ensures Percent(housing, income) / 100.0 * income == housing
  {
    assert Percent(housing, income) == housing / income * 100.0;
  }

  /** The subscription advice: a year of the monthly subscriptions, which
      above 5% of income is more than 60% of a month's income. */
  function SubscriptionRule(f: Finances): (r: Recommendation)
    ensures r.priority == Baixa && IsSubscription(r)
    ensures r.detail.monthly == f.subscriptions && r.detail.annualWaste == 12.0 * f.subscriptions
    ensures f.subscriptions > Aggregate(f).averageMonthlyIncome * 0.05 ==>
              r.detail.annualWaste > 0.6 * Aggregate(f).averageMonthlyIncome
  {
    Recommendation(Baixa, Otimizacao, SubscriptionCost(f.subscriptions, f.subscriptions * 12.0))
  }

  /** The bonus-pay advice: the bonus total of the year, to be spent on what
      the household's tier calls for. */
  function SubsidioRule(f: Finances): (r: Recommendation)
    ensures r.priority == Alta && IsSubsidio(r) && r.detail.totalSubsidios == SubsidiosTotal(f)
    ensures r.detail.use == CompleteStarterFund <==> Classify(StandingOf(f)) == Some(StarterFund)
    ensures r.detail.use.PayOffDebt? <==> Classify(StandingOf(f)) == Some(DebtElimination)
    ensures r.detail.use.PayOffDebt? ==> r.detail.use.target == TargetName(FirstDebtName(AvalancheOrder(f)))
    ensures r.detail.use == BuildEmergencyFund <==> Classify(StandingOf(f)) == Some(FullEmergencyFund)
    ensures r.detail.use == InvestForFuture
            <==> Classify(StandingOf(f)) == Some(Invest15) || Classify(StandingOf(f)) == Some(Optimize)
  {
    var use := SubsidioUseFor(StandingOf(f), FirstDebtName(AvalancheOrder(f)));
    SubsidioUseFollowsTier(StandingOf(f), FirstDebtName(AvalancheOrder(f)));
    Recommendation(Alta, Estrategia, SubsidioStrategy(Aggregate(f).subsidiosTotal, use))
  }

  /** Lines 413-531: the excess-savings rule pushes, the overspending alert
      goes to the front, then the housing, subscription and subsidio rules
      push, each only when its condition holds. */
  method SupplementaryRules(f: Finances, primary: seq<Recommendation>) returns (recs: seq<Recommendation>)
    ensures recs == When(Aggregate(f).savingsRate < 0.0, AlertRule(f)) + primary
                    + When(ExcessSavingsFires(f), ExcessRule(f))
                    + When(Aggregate(f).housingRatio > 35.0, HousingRule(f))
                    + When(f.subscriptions > Aggregate(f).averageMonthlyIncome * 0.05, SubscriptionRule(f))
                    + When(f.receivesSubsidios, SubsidioRule(f))
  {
    var a := Aggregate(f);
    var allDebts := AvalancheOrder(f);
    var totalNonMortgageDebt := TotalAmount(allDebts);
    recs := primary;

    var excessSavings := f.currentSavings - a.recommendedEmergencyFund;
    if excessSavings > 1000.0 && totalNonMortgageDebt == 0.0 && f.currentSavings >= a.recommendedEmergencyFund {
      recs := recs + [ExcessSavingsAdvice(excessSavings)];
    }
    assert recs == primary + When(ExcessSavingsFires(f), ExcessRule(f));

    if a.savingsRate < 0.0 {
      recs := [AlertRule(f)] + recs;
    }
    assert recs == When(a.savingsRate < 0.0, AlertRule(f)) + primary + When(ExcessSavingsFires(f), ExcessRule(f));

    if a.housingRatio > 35.0 {
      recs := recs + [HousingRule(f)];
    }
    ghost var front := When(a.savingsRate < 0.0, AlertRule(f)) + primary + When(ExcessSavingsFires(f), ExcessRule(f));
    assert recs == front + When(a.housingRatio > 35.0, HousingRule(f));
    if f.subscriptions > a.averageMonthlyIncome * 0.05 {
      recs := recs + [SubscriptionRule(f)];
    }
    assert recs == front + When(a.housingRatio > 35.0, HousingRule(f))
                   + When(f.subscriptions > a.averageMonthlyIncome * 0.05, SubscriptionRule(f));
    if f.receivesSubsidios {
      recs := recs + [SubsidioRule(f)];
    }
  }

  /** The whole list before the final sort. */
  method BuildRecommendations(f: Finances) returns (recs: seq<Recommendation>, ghost primary: seq<Recommendation>)
    ensures PrimaryShape(f, primary) && recs == Assembled(f, primary)
    ensures CountBy(recs, IsPrimary) == 1
    ensures CountBy(recs, IsAttackOrder)
            == if Classify(StandingOf(f)) == Some(DebtElimination) && |AvalancheOrder(f)| > 1 then 1 else 0
    ensures CountBy(recs, IsExcessSavings) == if ExcessSavingsFires(f) then 1 else 0
    ensures CountBy(recs, IsNegativeSavings) == if Aggregate(f).savingsRate < 0.0 then 1 else 0
    ensures Aggregate(f).savingsRate < 0.0 ==> |recs| > 0 && IsNegativeSavings(recs[0])
    ensures CountBy(recs, IsHousing) == if Aggregate(f).housingRatio > 35.0 then 1 else 0
    ensures CountBy(recs, IsSubscription)
            == if f.subscriptions > Aggregate(f).averageMonthlyIncome * 0.05 then 1 else 0
    ensures CountBy(recs, IsSubsidio) == if f.receivesSubsidios then 1 else 0
    ensures forall i :: 0 <= i < |recs| ==> Consistent(f, recs[i])
  {
    var tiers := PrimaryRecommendations(f);
    recs := SupplementaryRules(f, tiers);
    primary := tiers;
    PrimaryConsistent(f, tiers);
    BuiltFacts(f, tiers, recs);
    BuiltConsistent(f, tiers, recs);
  }

  /** The list SupplementaryRules lays out around the primary recommendations. */
  ghost function Assembled(f: Finances, primary: seq<Recommendation>): seq<Recommendation>
  {
    When(Aggregate(f).savingsRate < 0.0, AlertRule(f)) + primary
    + When(ExcessSavingsFires(f), ExcessRule(f))
    + When(Aggregate(f).housingRatio > 35.0, HousingRule(f))
    + When(f.subscriptions > Aggregate(f).averageMonthlyIncome * 0.05, SubscriptionRule(f))
    + When(f.receivesSubsidios, SubsidioRule(f))
  }

  /** The primary recommendations PrimaryRecommendations produces: the entry
      of the selected tier, consistent with the snapshot, and the attack order
      exactly when tier 2 fires with several debts. */
  ghost predicate PrimaryShape(f: Finances, primary: seq<Recommendation>)
  {
    && 1 <= |primary| <= 2
    && IsPrimary(primary[0]) && Consistent(f, primary[0])
    && (|primary| == 2 <==> Classify(StandingOf(f)) == Some(DebtElimination) && |AvalancheOrder(f)| > 1)
    && (|primary| == 2 ==> primary[1] == Recommendation(Alta, Passo2Continuacao, AttackOrder(AvalancheOrder(f))))
  }

  /** The counts of the built list. */
  lemma BuiltFacts(f: Finances, primary: seq<Recommendation>, recs: seq<Recommendation>)
    requires 1 <= |primary| <= 2
    requires IsPrimary(primary[0]) && TierOf(primary[0].detail) == Classify(StandingOf(f))
    requires primary[0].priority != Emergencia
    requires |primary| == 2 <==> Classify(StandingOf(f)) == Some(DebtElimination) && |AvalancheOrder(f)| > 1
    requires |primary| == 2 ==> primary[1] == Recommendation(Alta, Passo2Continuacao, AttackOrder(AvalancheOrder(f)))
    requires recs == When(Aggregate(f).savingsRate < 0.0, AlertRule(f)) + primary
                     + When(ExcessSavingsFires(f), ExcessRule(f))
                     + When(Aggregate(f).housingRatio > 35.0, HousingRule(f))
                     + When(f.subscriptions > Aggregate(f).averageMonthlyIncome * 0.05, SubscriptionRule(f))
                     + When(f.receivesSubsidios, SubsidioRule(f))
    ensures CountBy(recs, IsPrimary) == 1
    ensures CountBy(recs, IsAttackOrder)
            == if Classify(StandingOf(f)) == Some(DebtElimination) && |AvalancheOrder(f)| > 1 then 1 else 0
    ensures CountBy(recs, IsExcessSavings) == if ExcessSavingsFires(f) then 1 else 0
    ensures CountBy(recs, IsNegativeSavings) == if Aggregate(f).savingsRate < 0.0 then 1 else 0
    ensures Aggregate(f).savingsRate < 0.0 ==> |recs| > 0 && IsNegativeSavings(recs[0])
    ensures CountBy(recs, IsHousing) == if Aggregate(f).housingRatio > 35.0 then 1 else 0
    ensures CountBy(recs, IsSubscription)
            == if f.subscriptions > Aggregate(f).averageMonthlyIncome * 0.05 then 1 else 0
    ensures CountBy(recs, IsSubsidio) == if f.receivesSubsidios then 1 else 0
  {
    var c0, c1, c2, c3, c4 := Aggregate(f).savingsRate < 0.0, ExcessSavingsFires(f),
      Aggregate(f).housingRatio > 35.0, f.subscriptions > Aggregate(f).averageMonthlyIncome * 0.05,
      f.receivesSubsidios;
    var r0, r1, r2, r3, r4 := AlertRule(f), ExcessRule(f), HousingRule(f), SubscriptionRule(f), SubsidioRule(f);
    assert Layout(recs, primary, r0, r1, r2, r3, r4, c0, c1, c2, c3, c4);
    PrimaryCount(recs, primary, r0, r1, r2, r3, r4, c0, c1, c2, c3, c4);
    AttackOrderCount(recs, primary, r0, r1, r2, r3, r4, c0, c1, c2, c3, c4);
    NegativeSavingsCount(recs, primary, r0, r1, r2, r3, r4, c0, c1, c2, c3, c4);
    ExcessSavingsCount(recs, primary, r0, r1, r2, r3, r4, c0, c1, c2, c3, c4);
    HousingCount(recs, primary, r0, r1, r2, r3, r4, c0, c1, c2, c3, c4);
    SubscriptionCount(recs, primary, r0, r1, r2, r3, r4, c0, c1, c2, c3, c4);
    SubsidioCount(recs, primary, r0, r1, r2, r3, r4, c0, c1, c2, c3, c4);
  }

  /** Every entry of the built list agrees with the snapshot. */
  lemma BuiltConsistent(f: Finances, primary: seq<Recommendation>, recs: seq<Recommendation>)
    requires 1 <= |primary| <= 2
    requires IsPrimary(primary[0]) && TierOf(primary[0].detail) == Classify(StandingOf(f))
    requires primary[0].priority == PriorityOf(primary[0].detail) && primary[0].step == StepOf(primary[0].detail)
    requires |primary| == 2 <==> Classify(StandingOf(f)) == Some(DebtElimination) && |AvalancheOrder(f)| > 1
    requires |primary| == 2 ==> primary[1] == Recommendation(Alta, Passo2Continuacao, AttackOrder(AvalancheOrder(f)))
    requires PayloadSound(f, primary[0].detail)
    requires recs == When(Aggregate(f).savingsRate < 0.0, AlertRule(f)) + primary
                     + When(ExcessSavingsFires(f), ExcessRule(f))
                     + When(Aggregate(f).housingRatio > 35.0, HousingRule(f))
                     + When(f.subscriptions > Aggregate(f).averageMonthlyIncome * 0.05, SubscriptionRule(f))
                     + When(f.receivesSubsidios, SubsidioRule(f))
    ensures forall i :: 0 <= i < |recs| ==> Consistent(f, recs[i])
  {
    var c0, c1, c2, c3, c4 := Aggregate(f).savingsRate < 0.0, ExcessSavingsFires(f),
      Aggregate(f).housingRatio > 35.0, f.subscriptions > Aggregate(f).averageMonthlyIncome * 0.05,
      f.receivesSubsidios;
    var r0, r1, r2, r3, r4 := AlertRule(f), ExcessRule(f), HousingRule(f), SubscriptionRule(f), SubsidioRule(f);
    PrimaryConsistent(f, primary);
    RulesConsistent(f);
    AllConsistent(f, recs, primary, r0, r1, r2, r3, r4, c0, c1, c2, c3, c4);
  }

  /** The count of one kind of recommendation in the built list. */
  lemma CountKind(primary: seq<Recommendation>, r0: Recommendation, r1: Recommendation, r2: Recommendation,
                  r3: Recommendation, r4: Recommendation, c0: bool, c1: bool, c2: bool, c3: bool, c4: bool,
                  p: Recommendation -> bool)
    requires 1 <= |primary| <= 2
    ensures CountBy(When(c0, r0) + primary + When(c1, r1) + When(c2, r2) + When(c3, r3) + When(c4, r4), p)
            == Bit(p(primary[0])) + Bit(|primary| == 2 && p(primary[1]))
               + Bit(c0 && p(r0)) + Bit(c1 && p(r1)) + Bit(c2 && p(r2)) + Bit(c3 && p(r3)) + Bit(c4 && p(r4))
  {
    CountSegments(primary, r0, r1, r2, r3, r4, c0, c1, c2, c3, c4, p);
    CountPrimary(primary, p);
  }

  /** The same count, over the list as built. */
  lemma CountBuilt(recs: seq<Recommendation>, primary: seq<Recommendation>, r0: Recommendation,
                   r1: Recommendation, r2: Recommendation, r3: Recommendation, r4: Recommendation,
                   c0: bool, c1: bool, c2: bool, c3: bool, c4: bool, p: Recommendation -> bool)
    requires 1 <= |primary| <= 2
    requires recs == When(c0, r0) + primary + When(c1, r1) + When(c2, r2) + When(c3, r3) + When(c4, r4)
    ensures CountBy(recs, p)
            == Bit(p(primary[0])) + Bit(|primary| == 2 && p(primary[1]))
               + Bit(c0 && p(r0)) + Bit(c1 && p(r1)) + Bit(c2 && p(r2)) + Bit(c3 && p(r3)) + Bit(c4 && p(r4))
  {
    CountKind(primary, r0, r1, r2, r3, r4, c0, c1, c2, c3, c4, p);
  }

  /** The built list: the alert if it fired, the primary recommendations,
      then each supplementary rule that fired, in order. */
  ghost predicate Layout(recs: seq<Recommendation>, primary: seq<Recommendation>, r0: Recommendation,
                         r1: Recommendation, r2: Recommendation, r3: Recommendation, r4: Recommendation,
                         c0: bool, c1: bool, c2: bool, c3: bool, c4: bool)
  {
    && 1 <= |primary| <= 2 && IsPrimary(primary[0])
    && (|primary| == 2 ==> primary[1].detail.AttackOrder?)
    && IsNegativeSavings(r0) && IsExcessSavings(r1) && IsHousing(r2) && IsSubscription(r3) && IsSubsidio(r4)
    && recs == When(c0, r0) + primary + When(c1, r1) + When(c2, r2) + When(c3, r3) + When(c4, r4)
  }

  // Each kind of recommendation occurs in the built list once per rule that fired.

  lemma PrimaryCount(recs: seq<Recommendation>, primary: seq<Recommendation>, r0: Recommendation,
                    r1: Recommendation, r2: Recommendation, r3: Recommendation, r4: Recommendation,
                    c0: bool, c1: bool, c2: bool, c3: bool, c4: bool)
    requires Layout(recs, primary, r0, r1, r2, r3, r4, c0, c1, c2, c3, c4)
    ensures CountBy(recs, IsPrimary) == 1
  {
    assert !IsPrimary(r0) && !IsPrimary(r1) && !IsPrimary(r2) && !IsPrimary(r3) && !IsPrimary(r4);
    CountBuilt(recs, primary, r0, r1, r2, r3, r4, c0, c1, c2, c3, c4, IsPrimary);
  }

  lemma AttackOrderCount(recs: seq<Recommendation>, primary: seq<Recommendation>, r0: Recommendation,
                    r1: Recommendation, r2: Recommendation, r3: Recommendation, r4: Recommendation,
                    c0: bool, c1: bool, c2: bool, c3: bool, c4: bool)
    requires Layout(recs, primary, r0, r1, r2, r3, r4, c0, c1, c2, c3, c4)
    ensures CountBy(recs, IsAttackOrder) == |primary| - 1
  {
    assert !IsAttackOrder(primary[0]);
    assert !IsAttackOrder(r0) && !IsAttackOrder(r1) && !IsAttackOrder(r2) && !IsAttackOrder(r3) && !IsAttackOrder(r4);
    CountBuilt(recs, primary, r0, r1, r2, r3, r4, c0, c1, c2, c3, c4, IsAttackOrder);
  }

  lemma NegativeSavingsCount(recs: seq<Recommendation>, primary: seq<Recommendation>, r0: Recommendation,
                    r1: Recommendation, r2: Recommendation, r3: Recommendation, r4: Recommendation,
                    c0: bool, c1: bool, c2: bool, c3: bool, c4: bool)
    requires Layout(recs, primary, r0, r1, r2, r3, r4, c0, c1, c2, c3, c4)
    ensures CountBy(recs, IsNegativeSavings) == Bit(c0)
  {
    assert !IsNegativeSavings(primary[0]) && (|primary| == 2 ==> !IsNegativeSavings(primary[1]));
    assert !IsNegativeSavings(r1) && !IsNegativeSavings(r2) && !IsNegativeSavings(r3) && !IsNegativeSavings(r4);
    CountBuilt(recs, primary, r0, r1, r2, r3, r4, c0, c1, c2, c3, c4, IsNegativeSavings);
  }

  lemma ExcessSavingsCount(recs: seq<Recommendation>, primary: seq<Recommendation>, r0: Recommendation,
                    r1: Recommendation, r2: Recommendation, r3: Recommendation, r4: Recommendation,
                    c0: bool, c1: bool, c2: bool, c3: bool, c4: bool)
    requires Layout(recs, primary, r0, r1, r2, r3, r4, c0, c1, c2, c3, c4)
    ensures CountBy(recs, IsExcessSavings) == Bit(c1)
  {
    assert !IsExcessSavings(primary[0]) && (|primary| == 2 ==> !IsExcessSavings(primary[1]));
    assert !IsExcessSavings(r0) && !IsExcessSavings(r2) && !IsExcessSavings(r3) && !IsExcessSavings(r4);
    CountBuilt(recs, primary, r0, r1, r2, r3, r4, c0, c1, c2, c3, c4, IsExcessSavings);
  }

  lemma HousingCount(recs: seq<Recommendation>, primary: seq<Recommendation>, r0: Recommendation,
                    r1: Recommendation, r2: Recommendation, r3: Recommendation, r4: Recommendation,
                    c0: bool, c1: bool, c2: bool, c3: bool, c4: bool)
    requires Layout(recs, primary, r0, r1, r2, r3, r4, c0, c1, c2, c3, c4)
    ensures CountBy(recs, IsHousing) == Bit(c2)
  {
    assert !IsHousing(primary[0]) && (|primary| == 2 ==> !IsHousing(primary[1]));
    assert !IsHousing(r0) && !IsHousing(r1) && !IsHousing(r3) && !IsHousing(r4);
    CountBuilt(recs, primary, r0, r1, r2, r3, r4, c0, c1, c2, c3, c4, IsHousing);
  }

  lemma SubscriptionCount(recs: seq<Recommendation>, primary: seq<Recommendation>, r0: Recommendation,
                    r1: Recommendation, r2: Recommendation, r3: Recommendation, r4: Recommendation,
                    c0: bool, c1: bool, c2: bool, c3: bool, c4: bool)
    requires Layout(recs, primary, r0, r1, r2, r3, r4, c0, c1, c2, c3, c4)
    ensures CountBy(recs, IsSubscription) == Bit(c3)
  {
    assert !IsSubscription(primary[0]) && (|primary| == 2 ==> !IsSubscription(primary[1]));
    assert !IsSubscription(r0) && !IsSubscription(r1) && !IsSubscription(r2) && !IsSubscription(r4);
    CountBuilt(recs, primary, r0, r1, r2, r3, r4, c0, c1, c2, c3, c4, IsSubscription);
  }

  lemma SubsidioCount(recs: seq<Recommendation>, primary: seq<Recommendation>, r0: Recommendation,
                    r1: Recommendation, r2: Recommendation, r3: Recommendation, r4: Recommendation,
                    c0: bool, c1: bool, c2: bool, c3: bool, c4: bool)
    requires Layout(recs, primary, r0, r1, r2, r3, r4, c0, c1, c2, c3, c4)
    ensures CountBy(recs, IsSubsidio) == Bit(c4)
  {
    assert !IsSubsidio(primary[0]) && (|primary| == 2 ==> !IsSubsidio(primary[1]));
    assert !IsSubsidio(r0) && !IsSubsidio(r1) && !IsSubsidio(r2) && !IsSubsidio(r3);
    CountBuilt(recs, primary, r0, r1, r2, r3, r4, c0, c1, c2, c3, c4, IsSubsidio);
  }


  lemma PrimaryConsistent(f: Finances, primary: seq<Recommendation>)
    requires 1 <= |primary| <= 2
    requires IsPrimary(primary[0]) && TierOf(primary[0].detail) == Classify(StandingOf(f))
    requires primary[0].priority == PriorityOf(primary[0].detail) && primary[0].step == StepOf(primary[0].detail)
    requires |primary| == 2 <==> Classify(StandingOf(f)) == Some(DebtElimination) && |AvalancheOrder(f)| > 1
    requires |primary| == 2 ==> primary[1] == Recommendation(Alta, Passo2Continuacao, AttackOrder(AvalancheOrder(f)))
    requires PayloadSound(f, primary[0].detail)
    ensures Consistent(f, primary[0]) && (|primary| == 2 ==> Consistent(f, primary[1]))
    ensures PrimaryShape(f, primary)
  {
  }

  lemma RulesConsistent(f: Finances)
    ensures Aggregate(f).savingsRate < 0.0 ==> Consistent(f, AlertRule(f))
    ensures ExcessSavingsFires(f) ==> Consistent(f, ExcessRule(f))
    ensures Aggregate(f).housingRatio > 35.0 ==> Consistent(f, HousingRule(f))
    ensures f.subscriptions > Aggregate(f).averageMonthlyIncome * 0.05 ==> Consistent(f, SubscriptionRule(f))
    ensures f.receivesSubsidios ==> Consistent(f, SubsidioRule(f))
  {
  }

  lemma AllConsistent(f: Finances, recs: seq<Recommendation>, primary: seq<Recommendation>, r0: Recommendation,
                      r1: Recommendation, r2: Recommendation, r3: Recommendation, r4: Recommendation,
                      c0: bool, c1: bool, c2: bool, c3: bool, c4: bool)
    requires 1 <= |primary| <= 2 && Consistent(f, primary[0]) && (|primary| == 2 ==> Consistent(f, primary[1]))
    requires (c0 ==> Consistent(f, r0)) && (c1 ==> Consistent(f, r1)) && (c2 ==> Consistent(f, r2))
    requires (c3 ==> Consistent(f, r3)) && (c4 ==> Consistent(f, r4))
    requires recs == When(c0, r0) + primary + When(c1, r1) + When(c2, r2) + When(c3, r3) + When(c4, r4)
    ensures forall i :: 0 <= i < |recs| ==> Consistent(f, recs[i])
  {
    forall i | 0 <= i < |recs|
      ensures Consistent(f, recs[i])
    {
      var x := recs[i];
      assert x in recs;
      assert x in primary || (c0 && x == r0) || (c1 && x == r1) || (c2 && x == r2) || (c3 && x == r3)
             || (c4 && x == r4);
      if x in primary {
        assert x == primary[0] || x == primary[1];
      }
    }
  }
}
