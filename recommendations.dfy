/**
 * Recommendation records and their priority order. The free text of each
 * recommendation (action, impact, timeline, action steps) is left opaque:
 * a record keeps its priority, its step label, and its category together
 * with the figures the text reports.
 */
module Recommendations {
  import opened Numeric
  import opened Sorting
  import opened Optional
  import opened DebtPlanner
  import opened Amortisation
  import opened Tiers
  import opened Projection

  datatype Priority = Emergencia | Critica | MuitoAlta | Alta | Media | Baixa

  /** Sort rank of a priority: Crítica 0, Muito Alta 1, Alta 2, Média 3,
      Baixa 4, as in the comparator's table. 'EMERGÊNCIA' is missing from that
      table; it gets -1 here, so that the alert the engine puts at the front
      stays in front (see AsWrittenCompare). */
  function Rank(p: Priority): (r: int)
    ensures -1 <= r <= 4
    ensures r == -1 <==> p == Emergencia
  {
    match p
    case Emergencia => -1
    case Critica => 0
    case MuitoAlta => 1
    case Alta => 2
    case Media => 3
    case Baixa => 4
  }

  /** As written: `priority[a.priority] - priority[b.priority]` is NaN when
      either side is 'EMERGÊNCIA' (the lookup yields undefined), and the
      SortCompare step of ECMA-262's Array.prototype.sort reads NaN as +0. */
  function AsWrittenCompare(a: Priority, b: Priority): int
  {
    if a == Emergencia || b == Emergencia then 0 else Rank(a) - Rank(b)
  }

  /** The as-written comparator is not consistent: EMERGÊNCIA ties with both
      Crítica and Baixa although Crítica sorts before Baixa, so the order the
      sort produces for the alert is implementation-defined. */
  lemma AsWrittenCompareIsInconsistent()
    ensures AsWrittenCompare(Critica, Emergencia) == 0
    ensures AsWrittenCompare(Emergencia, Baixa) == 0
    ensures AsWrittenCompare(Critica, Baixa) < 0
  {
  }

  datatype Step =
    | Passo1 | Passo2 | Passo2Continuacao | Passo3 | Passo4
    | Parabens | Otimizacao | Urgente | Estrategia

  /** The category of a recommendation with the figures its text reports. */
  datatype Detail =
    | StarterFundPlan(needed: real, monthsToSave: int)
    | DebtPlan(
        debtCount: nat,
        totalNonMortgageDebt: real,
        target: DebtEntry,
        extraPayment: real,
        newMonthlyPayment: real,
        originalMonths: int,
        originalInterest: real,
        payoff: Payoff,
        monthsSaved: Option<int>,
        interestSaved: real,
        monthsToDebtFree: int,
        otherMinimums: real,
        freedPayment: real)
    | AttackOrder(debts: seq<DebtEntry>)
    | EmergencyFundPlan(fundTarget: real, needed: real, monthsToSave: int, existingInvestments: real)
    | InvestPlan(
        monthlyTarget: real,
        monthlySaving: real,
        gap: real,
        yearlyInvestment: real,
        futureValue: real,
        existingInvestmentsFuture: real,
        totalFutureValue: real)
    | OptimizePlan(
        monthlyInvestment: real,
        futureValue30: real,
        retirementNeeds: real,
        yearsToFI: nat,
        reachedTarget: bool,
        retirementAge: nat)
    | ExcessSavings(excess: real, in10Years: real, in20Years: real, in30Years: real)
    | NegativeSavings(monthlyShortfall: real)
    | HousingCost(housingRatio: real, savingsIfReduced: real)
    | SubscriptionCost(monthly: real, annualWaste: real)
    | SubsidioStrategy(totalSubsidios: real, use: SubsidioUse)

  datatype Recommendation = Recommendation(priority: Priority, step: Step, detail: Detail)

  /** The tier a primary recommendation belongs to; None for the supplementary ones. */
  function TierOf(d: Detail): Option<Tier>
  {
    match d
    case StarterFundPlan(_, _) => Some(StarterFund)
    case DebtPlan(_, _, _, _, _, _, _, _, _, _, _, _, _) => Some(DebtElimination)
    case EmergencyFundPlan(_, _, _, _) => Some(FullEmergencyFund)
    case InvestPlan(_, _, _, _, _, _, _) => Some(Invest15)
    case OptimizePlan(_, _, _, _, _, _) => Some(Optimize)
    case _ => None
  }

  /** The priority each kind of recommendation is given where it is made. */
  function PriorityOf(d: Detail): (p: Priority)
    ensures p == Emergencia <==> d.NegativeSavings?
  {
    match d
    case StarterFundPlan(_, _) => Critica
    case DebtPlan(_, _, _, _, _, _, _, _, _, _, _, _, _) => Critica
    case AttackOrder(_) => Alta
    case EmergencyFundPlan(_, _, _, _) => MuitoAlta
    case InvestPlan(_, _, _, _, _, _, _) => Alta
    case OptimizePlan(_, _, _, _, _, _) => Baixa
    case ExcessSavings(_, _, _, _) => Media
    case NegativeSavings(_) => Emergencia
    case HousingCost(_, _) => Media
    case SubscriptionCost(_, _) => Baixa
    case SubsidioStrategy(_, _) => Alta
  }

  /** The step label each kind of recommendation carries. */
  function StepOf(d: Detail): Step
  {
    match d
    case StarterFundPlan(_, _) => Passo1
    case DebtPlan(_, _, _, _, _, _, _, _, _, _, _, _, _) => Passo2
    case AttackOrder(_) => Passo2Continuacao
    case EmergencyFundPlan(_, _, _, _) => Passo3
    case InvestPlan(_, _, _, _, _, _, _) => Passo4
    case OptimizePlan(_, _, _, _, _, _) => Parabens
    case ExcessSavings(_, _, _, _) => Otimizacao
    case NegativeSavings(_) => Urgente
    case HousingCost(_, _) => Otimizacao
    case SubscriptionCost(_, _) => Otimizacao
    case SubsidioStrategy(_, _) => Estrategia
  }

  predicate IsPrimary(r: Recommendation)
  {
    TierOf(r.detail).Some?
  }

  /** The sort key of the final ordering. */
  function RankKey(r: Recommendation): real
  {
    Rank(r.priority) as real
  }

  /** The stable sort by priority rank that orders the final list. */
  function ByPriority(recs: seq<Recommendation>): seq<Recommendation>
  {
    SortBy(recs, RankKey)
  }

  /** Corrected: with EMERGÊNCIA ranked -1, any alert in the list comes first
      after sorting. */
  lemma EmergencyAlertSortsFirst(recs: seq<Recommendation>)
    requires exists i :: 0 <= i < |recs| && recs[i].priority == Emergencia
    ensures |ByPriority(recs)| == |recs|
    ensures ByPriority(recs)[0].priority == Emergencia
  {
    var r := ByPriority(recs);
    SortByFacts(recs, RankKey);
    var i :| 0 <= i < |recs| && recs[i].priority == Emergencia;
    assert recs[i] in multiset(r);
    var j :| 0 <= j < |r| && r[j] == recs[i];
    SortedHeadIsLeast(r, RankKey);
    assert RankKey(r[0]) <= RankKey(r[j]);
  }

  /** `monthlyDisposable > 0 ? Math.ceil(needed / monthlyDisposable) : 999`:
      the whole months of saving that cover what is missing. */
  function MonthsToSave(needed: real, monthlyDisposable: real): (m: int)
    ensures monthlyDisposable <= 0.0 ==> m == NoPaymentMonths
    ensures monthlyDisposable > 0.0 && needed >= 0.0 ==>
              m >= 0 && m as real * monthlyDisposable >= needed
              && (m - 1) as real * monthlyDisposable < needed
  {
    if monthlyDisposable > 0.0 then
      if needed >= 0.0 then
        CeilCoversAmount(needed, monthlyDisposable);
        Ceil(needed / monthlyDisposable)
      else Ceil(needed / monthlyDisposable)
    else NoPaymentMonths
  }

  /** Tier 1: reach the €1000 starter fund. */
  function StarterFundAdvice(currentSavings: Money, monthlyDisposable: real): (r: Recommendation)
    requires currentSavings < StarterFundTarget
    ensures r.priority == Critica && r.detail.StarterFundPlan?
    ensures r.detail.needed > 0.0 && currentSavings + r.detail.needed == StarterFundTarget
    ensures r.detail.monthsToSave == MonthsToSave(r.detail.needed, monthlyDisposable)
  {
    var needed := StarterFundTarget - currentSavings;
    Recommendation(Critica, Passo1, StarterFundPlan(needed, MonthsToSave(needed, monthlyDisposable)))
  }

  /** Tier 3: close the gap to six months of expenses. */
  function EmergencyFundAdvice(currentSavings: Money, fund: real, monthlyDisposable: real, totalInvestments: real)
    : (r: Recommendation)
    requires currentSavings < fund
    ensures r.priority == MuitoAlta && r.detail.EmergencyFundPlan?
    ensures r.detail.fundTarget == fund && r.detail.existingInvestments == totalInvestments
    ensures r.detail.needed > 0.0 && currentSavings + r.detail.needed == r.detail.fundTarget
    ensures r.detail.monthsToSave == MonthsToSave(r.detail.needed, monthlyDisposable)
  {
    var needed := fund - currentSavings;
    Recommendation(MuitoAlta, Passo3,
      EmergencyFundPlan(fund, needed, MonthsToSave(needed, monthlyDisposable), totalInvestments))
  }

  /** Years of the long projections. */
  const ProjectionYears: nat := 30

  /** Tier 4: invest 15% of income; 30-year projections of the new
      contributions and of what is already invested, which are what 30 years
      of compounding them at 7% give. */
  function InvestAdvice(averageMonthlyIncome: real, monthlyDisposable: real, totalInvestments: real)
    : (r: Recommendation)
    ensures r.priority == Alta && r.detail.InvestPlan?
    ensures r.detail.monthlyTarget == 0.15 * averageMonthlyIncome && r.detail.monthlySaving == monthlyDisposable
    ensures r.detail.gap + r.detail.monthlySaving == r.detail.monthlyTarget
    ensures r.detail.yearlyInvestment == 12.0 * r.detail.monthlyTarget
    ensures r.detail.futureValue == Compounded(0.0, r.detail.yearlyInvestment, ProjectionYears)
    ensures r.detail.existingInvestmentsFuture == Compounded(totalInvestments, 0.0, ProjectionYears)
    ensures r.detail.totalFutureValue == r.detail.futureValue + r.detail.existingInvestmentsFuture
  {
    var target15 := averageMonthlyIncome * 0.15;
    var yearly := target15 * 12.0;
    var fv := AnnuityValue(yearly, ProjectionYears);
    var existing := LumpSum(totalInvestments, ProjectionYears);
    CompoundedClosedForm(0.0, yearly, ProjectionYears);
    CompoundedClosedForm(totalInvestments, 0.0, ProjectionYears);
    Recommendation(Alta, Passo4,
      InvestPlan(target15, monthlyDisposable, target15 - monthlyDisposable, yearly, fv, existing, fv + existing))
  }

  /** Extra rule: savings more than €1000 above the emergency fund, projected at 7% over 10/20/30 years. */
  function ExcessSavingsAdvice(excess: Money): (r: Recommendation)
    ensures r.priority == Media && r.detail.ExcessSavings? && r.detail.excess == excess
    ensures excess <= r.detail.in10Years <= r.detail.in20Years <= r.detail.in30Years
    ensures r.detail.in10Years == Compounded(excess, 0.0, 10)
    ensures r.detail.in20Years == Compounded(excess, 0.0, 20)
    ensures r.detail.in30Years == Compounded(excess, 0.0, 30)
  {
    LumpSumGrows(excess, 10, 20);
    LumpSumGrows(excess, 20, 30);
    CompoundedClosedForm(excess, 0.0, 10);
    CompoundedClosedForm(excess, 0.0, 20);
    CompoundedClosedForm(excess, 0.0, 30);
    Recommendation(Media, Otimizacao, ExcessSavings(excess, LumpSum(excess, 10), LumpSum(excess, 20), LumpSum(excess, 30)))
  }

  /** Extra rule: housing above 35% of income; what a cut to 30% would free per year. */
  function HousingAdvice(housingRatio: real, averageMonthlyIncome: real): (r: Recommendation)
    ensures r.priority == Media && r.detail.HousingCost? && r.detail.housingRatio == housingRatio
    ensures housingRatio > 30.0 && averageMonthlyIncome > 0.0 ==> r.detail.savingsIfReduced > 0.0
    ensures r.detail.savingsIfReduced
            == 12.0 * (housingRatio / 100.0 * averageMonthlyIncome - 0.30 * averageMonthlyIncome)
  {
    var freed := (housingRatio - 30.0) / 100.0 * averageMonthlyIncome * 12.0;
    if housingRatio > 30.0 && averageMonthlyIncome > 0.0 then
      MulPositive((housingRatio - 30.0) / 100.0, averageMonthlyIncome);
      Recommendation(Media, Otimizacao, HousingCost(housingRatio, freed))
    else
      Recommendation(Media, Otimizacao, HousingCost(housingRatio, freed))
  }
}
