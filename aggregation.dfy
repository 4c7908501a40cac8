/**
 * The aggregation stage of calculatePlan: income, expenses, disposable
 * income, guarded ratios, the emergency-fund target and gap, interest,
 * investments and net worth.
 */
module Aggregation {
  import opened Numeric
  import opened Sorting
  import opened Household

  /** `x || fallback` on a number: 0 is falsy, so the fallback is used. */
  function OrElse(x: Money, fallback: Money): Money
  {
    if x == 0.0 then fallback else x
  }

  /** Holiday and Christmas bonus pay; each defaults to one month's salary when left at 0. */
  function SubsidiosTotal(f: Finances): Money
  {
    if f.receivesSubsidios
    then OrElse(f.subsidioFerias, f.monthlySalaryNet) + OrElse(f.subsidioNatal, f.monthlySalaryNet)
    else 0.0
  }

  function MonthlyFixedExpenses(f: Finances): Money
  {
    f.rent + f.utilities + f.insurance + f.phoneInternet + f.transportPass + f.condominium
  }

  function MonthlyVariableExpenses(f: Finances): Money
  {
    f.groceries + f.dining + f.entertainment + f.subscriptions + f.clothing
    + f.health + f.education + f.pets + f.other
  }

  function LoanPayment(l: Loan): real { l.monthlyPayment }
  function LoanAmount(l: Loan): real { l.totalAmount }
  function LoanMonthlyInterest(l: Loan): real { l.totalAmount * (l.interestRate / 100.0 / 12.0) }

  /** Sum of the seven categories when the household says it invests, else 0. */
  function TotalInvestments(f: Finances): Money
  {
    if f.hasInvestments then
      var v := f.investments;
      v.certificadosAforro + v.ppr + v.etfs + v.acoes + v.fundos + v.crypto + v.outros
    else 0.0
  }

  /** `income > 0 ? part / income * 100 : 0`. */
  function Percent(part: real, income: real): real
  {
    if income > 0.0 then part / income * 100.0 else 0.0
  }

  const EmergencyFundMonths: real := 6.0
  const MinimumEmergencyFundMonths: real := 3.0

  datatype Aggregates = Aggregates(
    yearlyBaseSalary: real,
    subsidiosTotal: real,
    yearlyOtherIncome: real,
    averageMonthlyIncome: real,
    totalYearlyIncome: real,
    monthlyFixedExpenses: real,
    monthlyVariableExpenses: real,
    monthlyLoanPayments: real,
    totalLoanDebt: real,
    monthlyDebtPayments: real,
    totalMonthlyExpenses: real,
    monthlyDisposable: real,
    yearlyDisposable: real,
    recommendedEmergencyFund: real,
    minimumEmergencyFund: real,
    emergencyFundGap: real,
    savingsRate: real,
    expenseRatio: real,
    housingRatio: real,
    debtRatio: real,
    totalDebt: real,
    monthlyInterestPaid: real,
    yearlyInterestPaid: real,
    totalInvestments: real,
    totalNetWorth: real)

  /** Every aggregate of the snapshot, computed as calculatePlan does. */
  function Aggregate(f: Finances): (a: Aggregates)
    ensures a.totalMonthlyExpenses >= 0.0 && a.averageMonthlyIncome >= 0.0
    ensures a.emergencyFundGap >= 0.0
    ensures a.emergencyFundGap == 0.0 <==> f.currentSavings >= a.recommendedEmergencyFund
    ensures a.averageMonthlyIncome == 0.0 ==>
              a.savingsRate == 0.0 && a.expenseRatio == 0.0 && a.housingRatio == 0.0 && a.debtRatio == 0.0
  {
    var monthlyBase := f.monthlySalaryNet;
    var yearlyBase := monthlyBase * 12.0;
    var subsidios := SubsidiosTotal(f);
    var yearlyOther := f.otherMonthlyIncome * 12.0 + f.otherYearlyIncome;
    var income := monthlyBase + f.otherMonthlyIncome;
    var fixed := MonthlyFixedExpenses(f);
    var variable := MonthlyVariableExpenses(f);
    var loanPayments := SumOf(f.loans, LoanPayment);
    var loanDebt := SumOf(f.loans, LoanAmount);
    var debtPayments := loanPayments + f.creditCardMonthlyPayment;
    var expenses := fixed + variable + debtPayments;
    var disposable := income - expenses;
    var fund := expenses * EmergencyFundMonths;
    var monthlyInterest := SumOf(f.loans, LoanMonthlyInterest)
                           + f.creditCardDebt * (f.creditCardInterestRate / 100.0 / 12.0);
    var investments := TotalInvestments(f);
    var totalDebt := loanDebt + f.creditCardDebt;
    SumOfNonNegative(f.loans, LoanPayment);
    Aggregates(
      yearlyBaseSalary := yearlyBase,
      subsidiosTotal := subsidios,
      yearlyOtherIncome := yearlyOther,
      averageMonthlyIncome := income,
      totalYearlyIncome := yearlyBase + yearlyOther + subsidios,
      monthlyFixedExpenses := fixed,
      monthlyVariableExpenses := variable,
      monthlyLoanPayments := loanPayments,
      totalLoanDebt := loanDebt,
      monthlyDebtPayments := debtPayments,
      totalMonthlyExpenses := expenses,
      monthlyDisposable := disposable,
      yearlyDisposable := disposable * 12.0,
      recommendedEmergencyFund := fund,
      minimumEmergencyFund := expenses * MinimumEmergencyFundMonths,
      emergencyFundGap := Max(0.0, fund - f.currentSavings),
      savingsRate := Percent(disposable, income),
      expenseRatio := Percent(expenses, income),
      housingRatio := Percent(f.rent + f.condominium, income),
      debtRatio := Percent(debtPayments, income),
      totalDebt := totalDebt,
      monthlyInterestPaid := monthlyInterest,
      yearlyInterestPaid := monthlyInterest * 12.0,
      totalInvestments := investments,
      totalNetWorth := f.currentSavings + investments - totalDebt)
  }

  /** The two snapshots differ at most in the bonus-pay fields. */
  ghost predicate SameButSubsidios(f: Finances, g: Finances)
  {
    g == f.(receivesSubsidios := g.receivesSubsidios,
            subsidioFerias := g.subsidioFerias,
            subsidioNatal := g.subsidioNatal)
  }

  /** Bonus pay never enters the monthly budget: changing only the bonus fields
      leaves monthly income, disposable income and every ratio as they were,
      and moves the yearly income by exactly the change in the bonus total. */
  lemma MonthlyBudgetIgnoresSubsidios(f: Finances, g: Finances)
    requires SameButSubsidios(f, g)
    ensures Aggregate(g).averageMonthlyIncome == Aggregate(f).averageMonthlyIncome
    ensures Aggregate(g).totalMonthlyExpenses == Aggregate(f).totalMonthlyExpenses
    ensures Aggregate(g).monthlyDisposable == Aggregate(f).monthlyDisposable
    ensures Aggregate(g).savingsRate == Aggregate(f).savingsRate
    ensures Aggregate(g).recommendedEmergencyFund == Aggregate(f).recommendedEmergencyFund
    ensures Aggregate(g).totalYearlyIncome - Aggregate(f).totalYearlyIncome
            == SubsidiosTotal(g) - SubsidiosTotal(f)
  {
  }

  /** With the flag set, an unset (zero) bonus counts as one month's salary
      and a set one as itself, each independently of the other; without the
      flag there is no bonus income. */
  lemma SubsidiosDefaults(f: Finances)
    ensures !f.receivesSubsidios ==> SubsidiosTotal(f) == 0.0
    ensures f.receivesSubsidios && f.subsidioFerias == 0.0 && f.subsidioNatal == 0.0
            ==> SubsidiosTotal(f) == 2.0 * f.monthlySalaryNet
    ensures f.receivesSubsidios && f.subsidioFerias != 0.0 && f.subsidioNatal != 0.0
            ==> SubsidiosTotal(f) == f.subsidioFerias + f.subsidioNatal
    ensures f.receivesSubsidios && f.subsidioFerias == 0.0 && f.subsidioNatal != 0.0
            ==> SubsidiosTotal(f) == f.monthlySalaryNet + f.subsidioNatal
    ensures f.receivesSubsidios && f.subsidioFerias != 0.0 && f.subsidioNatal == 0.0
            ==> SubsidiosTotal(f) == f.subsidioFerias + f.monthlySalaryNet
    ensures f.receivesSubsidios ==> SubsidiosTotal(f) >= f.subsidioFerias + f.subsidioNatal
  {
  }

  /** Yearly income is twelve months of the monthly income plus the yearly
      extras and the bonus pay. */
  lemma YearlyIncomeIsTwelveMonthsPlusExtras(f: Finances)
    ensures Aggregate(f).totalYearlyIncome
            == 12.0 * Aggregate(f).averageMonthlyIncome + f.otherYearlyIncome + SubsidiosTotal(f)
  {
  }

  /** Total expenses split into fixed, variable, loan and card payments. */
  lemma ExpensesDecompose(f: Finances)
    ensures Aggregate(f).totalMonthlyExpenses
            == MonthlyFixedExpenses(f) + MonthlyVariableExpenses(f)
               + SumOf(f.loans, LoanPayment) + f.creditCardMonthlyPayment
    ensures Aggregate(f).monthlyDisposable + Aggregate(f).totalMonthlyExpenses
            == Aggregate(f).averageMonthlyIncome
  {
  }

  /** With a positive income, what is saved and what is spent add up to 100%. */
  lemma RatesPartitionIncome(f: Finances)
    requires Aggregate(f).averageMonthlyIncome > 0.0
    ensures Aggregate(f).savingsRate + Aggregate(f).expenseRatio == 100.0
  {
    var a := Aggregate(f);
    var inc := a.averageMonthlyIncome;
    assert a.savingsRate == Percent(inc - a.totalMonthlyExpenses, inc);
    assert a.expenseRatio == Percent(a.totalMonthlyExpenses, inc);
    SharesAddUp(a.totalMonthlyExpenses, inc);
  }

  lemma SharesAddUp(part: real, whole: real)
    requires whole > 0.0
    ensures Percent(whole - part, whole) + Percent(part, whole) == 100.0
  {
    assert (whole - part) / whole + part / whole == 1.0;
  }

  /** The savings rate is negative exactly when there is income and it is
      outspent, so never when income is 0. */
  lemma NegativeRateIffOverspending(f: Finances)
    ensures Aggregate(f).savingsRate < 0.0
            <==> Aggregate(f).averageMonthlyIncome > 0.0
                 && Aggregate(f).totalMonthlyExpenses > Aggregate(f).averageMonthlyIncome
  {
    var a := Aggregate(f);
    var inc := a.averageMonthlyIncome;
    if inc > 0.0 {
      var d := a.monthlyDisposable;
      assert a.savingsRate == d / inc * 100.0;
      assert d < 0.0 ==> d / inc < 0.0;
      assert d >= 0.0 ==> d / inc >= 0.0;
    }
  }

  /** With a positive income, the 15% threshold of the tiers is disposable
      income reaching 15% of income. */
  lemma RateThresholdIsShareOfIncome(f: Finances, pct: real)
    requires Aggregate(f).averageMonthlyIncome > 0.0
    ensures Aggregate(f).savingsRate >= pct
            <==> Aggregate(f).monthlyDisposable >= pct / 100.0 * Aggregate(f).averageMonthlyIncome
  {
    var a := Aggregate(f);
    var inc := a.averageMonthlyIncome;
    var d := a.monthlyDisposable;
    assert a.savingsRate == d / inc * 100.0;
    assert d / inc * 100.0 * inc == d * 100.0;
    if a.savingsRate >= pct {
      assert a.savingsRate * inc >= pct * inc;
    } else {
      assert a.savingsRate * inc < pct * inc;
    }
  }

  /** The emergency-fund gap is what is missing from six months of expenses:
      savings plus gap reach the target, and the gap never exceeds the target. */
  lemma EmergencyGapCloses(f: Finances)
    ensures Aggregate(f).recommendedEmergencyFund == 6.0 * Aggregate(f).totalMonthlyExpenses
    ensures f.currentSavings + Aggregate(f).emergencyFundGap >= Aggregate(f).recommendedEmergencyFund
    ensures Aggregate(f).emergencyFundGap <= Aggregate(f).recommendedEmergencyFund
    ensures Aggregate(f).emergencyFundGap > 0.0
            ==> f.currentSavings + Aggregate(f).emergencyFundGap == Aggregate(f).recommendedEmergencyFund
  {
  }

  /** Interest at non-negative rates is non-negative, and the yearly figure is twelve months of it. */
  lemma InterestNonNegative(f: Finances)
    ensures Aggregate(f).monthlyInterestPaid >= 0.0
    ensures Aggregate(f).yearlyInterestPaid == 12.0 * Aggregate(f).monthlyInterestPaid
  {
    SumOfNonNegative(f.loans, LoanMonthlyInterest);
  }
}
