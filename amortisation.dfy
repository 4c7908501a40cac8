/**
 * The payoff simulation of the debt-elimination tier: month-by-month
 * amortisation of the avalanche target with the extra payment, capped at
 * 600 months, and the snowball chain that carries each freed payment on to
 * the next debt.
 */
module Amortisation {
  import opened Numeric
  import opened Sorting
  import opened Optional
  import opened DebtPlanner

  /** Iteration cap of the amortisation loop (50 years). */
  const MaxMonths: nat := 600

  /** Where the loop stands after some months. */
  datatype Schedule = Schedule(balance: real, months: nat, interest: real)

  /** Either the balance reached zero after `months`, or the cap was hit first. */
  datatype Payoff = Converged(months: nat, interest: real) | Capped(interest: real)

  /** The loop of lines 245-251 run from a given state to its exit. */
  function Run(balance: real, months: nat, interest: real, payment: real, monthlyRate: real): (r: Schedule)
    requires months <= MaxMonths
    ensures months <= r.months <= MaxMonths
    ensures balance >= 0.0 ==> r.balance >= 0.0 && (r.balance == 0.0 || r.months == MaxMonths)
    ensures balance >= 0.0 && monthlyRate >= 0.0 ==> r.interest >= interest
    decreases MaxMonths - months
  {
    if balance > 0.0 && months < MaxMonths then
      var charge := balance * monthlyRate;
      Run(balance - Min(payment - charge, balance), months + 1, interest + charge, payment, monthlyRate)
    else
      Schedule(balance, months, interest)
  }

  /** A capped run still has a balance; a converged one does not. */
  function Outcome(s: Schedule): Payoff
  {
    if s.balance > 0.0 then Capped(s.interest) else Converged(s.months, s.interest)
  }

  /** The accelerated schedule of a debt of `amount` paid `payment` a month. */
  function Accelerated(amount: Money, payment: real, monthlyRate: real): Payoff
  {
    Outcome(Run(amount, 0, 0.0, payment, monthlyRate))
  }

  /** The loop itself: amortise `amount` at `monthlyRate` with `payment` a month. */
  method Amortise(amount: Money, payment: real, monthlyRate: real) returns (p: Payoff)
    ensures p == Accelerated(amount, payment, monthlyRate)
    ensures p.Converged? ==> p.months <= MaxMonths
    ensures monthlyRate >= 0.0 ==> p.interest >= 0.0
  {
    var remainingBalance: real := amount;
    var newMonths: nat := 0;
    var totalInterestPaid: real := 0.0;
    while remainingBalance > 0.0 && newMonths < MaxMonths
      invariant newMonths <= MaxMonths
      invariant Run(remainingBalance, newMonths, totalInterestPaid, payment, monthlyRate)
                == Run(amount, 0, 0.0, payment, monthlyRate)
      decreases MaxMonths - newMonths
    {
      var interestCharge := remainingBalance * monthlyRate;
      totalInterestPaid := totalInterestPaid + interestCharge;
      var principalPayment := Min(payment - interestCharge, remainingBalance);
      remainingBalance := remainingBalance - principalPayment;
      newMonths := newMonths + 1;
    }
    if remainingBalance > 0.0 {
      p := Capped(totalInterestPaid);
    } else {
      p := Converged(newMonths, totalInterestPaid);
    }
  }

  /** The month count the original shows: the cap itself when the balance never cleared. */
  function ReportedMonths(p: Payoff): nat
  {
    match p
    case Converged(m, _) => m
    case Capped(_) => MaxMonths
  }

  /** When the payment does not exceed the first month's interest, the balance
      never falls, so the run always hits the cap. */
  lemma {:induction false} StalledPaymentIsCapped(balance: real, months: nat, interest: real, payment: real, monthlyRate: real)
    requires months <= MaxMonths
    requires balance > 0.0 && monthlyRate >= 0.0 && payment <= balance * monthlyRate
    ensures Run(balance, months, interest, payment, monthlyRate).balance >= balance
    ensures Outcome(Run(balance, months, interest, payment, monthlyRate)).Capped?
    decreases MaxMonths - months
  {
    if months < MaxMonths {
      var charge := balance * monthlyRate;
      var next := balance - Min(payment - charge, balance);
      assert next == balance + charge - payment;
      assert next >= balance;
      MulMonotone(balance, next, monthlyRate);
      StalledPaymentIsCapped(next, months + 1, interest + charge, payment, monthlyRate);
    }
  }

  /** A payment covering the balance plus one month's interest clears it in one month. */
  lemma PaidInOneMonth(amount: Money, payment: real, monthlyRate: real)
    requires amount > 0.0 && monthlyRate >= 0.0
    requires payment >= amount * (1.0 + monthlyRate)
    ensures Accelerated(amount, payment, monthlyRate) == Converged(1, amount * monthlyRate)
  {
    var charge := amount * monthlyRate;
    assert payment - charge >= amount;
    assert Run(amount, 0, 0.0, payment, monthlyRate) == Run(0.0, 1, charge, payment, monthlyRate);
  }

  /** At zero interest the simulation agrees with the linear estimate
      ceil(balance / payment) used for the card. */
  lemma {:induction false} InterestFreeMatchesLinearEstimate(balance: real, months: nat, payment: real)
    requires months <= MaxMonths
    requires balance >= 0.0 && payment > 0.0
    requires months + Ceil(balance / payment) <= MaxMonths
    ensures Outcome(Run(balance, months, 0.0, payment, 0.0)) == Converged(months + Ceil(balance / payment), 0.0)
    decreases MaxMonths - months
  {
    CeilCoversAmount(balance, payment);
    if balance > 0.0 {
      assert Ceil(balance / payment) >= 1;
      var next := balance - Min(payment, balance);
      assert Run(balance, months, 0.0, payment, 0.0) == Run(next, months + 1, 0.0, payment, 0.0);
      if payment >= balance {
        assert next == 0.0;
        DivAtMostOne(balance, payment);
        CeilUnique(balance / payment, 1);
      } else {
        assert next == balance - payment;
        DivMinusOne(balance, payment);
        CeilMinusOne(balance / payment);
        InterestFreeMatchesLinearEstimate(next, months + 1, payment);
      }
    } else {
      CeilUnique(balance / payment, 0);
    }
  }

  /** As written (line 253): months saved against the reported month count,
      which is the cap when the balance never cleared. */
  function AsWrittenMonthsSaved(originalMonths: int, p: Payoff): int
  {
    originalMonths - ReportedMonths(p)
  }

  /** A 10000 debt at 24% a year paid 200 a month never shrinks (its monthly
      interest is 200); the original still reports 560 months "saved" below
      its 40-month estimate, i.e. -560. */
  lemma AsWrittenMonthsSavedOnStalledDebt()
    ensures Accelerated(10000.0, 200.0, 24.0 / 100.0 / 12.0).Capped?
    ensures AsWrittenMonthsSaved(40, Accelerated(10000.0, 200.0, 24.0 / 100.0 / 12.0)) == -560
  {
    StalledPaymentIsCapped(10000.0, 0, 0.0, 200.0, 24.0 / 100.0 / 12.0);
  }

  /** Corrected: months saved only exist for a schedule that actually paid the debt off. */
  function MonthsSaved(originalMonths: int, p: Payoff): Option<int>
  {
    match p
    case Converged(m, _) => Some(originalMonths - m)
    case Capped(_) => None
  }

  /** Months saved are reported exactly when the simulated balance reached zero,
      and then they add up with the real payoff month to the original estimate. */
  lemma MonthsSavedOnlyWhenPaidOff(originalMonths: int, amount: Money, payment: real, monthlyRate: real)
    ensures MonthsSaved(originalMonths, Accelerated(amount, payment, monthlyRate)).Some?
            <==> Run(amount, 0, 0.0, payment, monthlyRate).balance == 0.0
    ensures MonthsSaved(originalMonths, Accelerated(amount, payment, monthlyRate)).Some?
            ==> MonthsSaved(originalMonths, Accelerated(amount, payment, monthlyRate)).value
                + Run(amount, 0, 0.0, payment, monthlyRate).months == originalMonths
  {
  }

  /** Months to clear `rest` one debt after another, each paid with everything
      freed so far plus its own minimum payment. */
  function SnowballMonths(rest: seq<DebtEntry>, available: real): (months: int)
    requires available > 0.0
    ensures months >= 0
  {
    if rest == [] then 0
    else
      var pay := available + rest[0].payment;
      CeilCoversAmount(rest[0].amount, pay);
      Ceil(rest[0].amount / pay) + SnowballMonths(rest[1..], pay)
  }

  /** The loop of lines 260-266: after the target debt (index 0), every other
      debt is cleared with the payment freed so far plus its own minimum. */
  method Snowball(allDebts: seq<DebtEntry>, newMonths: int, newMonthlyPayment: real)
    returns (totalMonthsToDebtFree: int, currentPaymentAvailable: real)
    requires |allDebts| >= 1 && newMonthlyPayment > 0.0
    ensures totalMonthsToDebtFree == newMonths + SnowballMonths(allDebts[1..], newMonthlyPayment)
    ensures totalMonthsToDebtFree >= newMonths
    ensures currentPaymentAvailable == newMonthlyPayment + TotalPayment(allDebts[1..])
    ensures currentPaymentAvailable >= newMonthlyPayment
  {
    totalMonthsToDebtFree := newMonths;
    currentPaymentAvailable := newMonthlyPayment;
    for i := 1 to |allDebts|
      invariant currentPaymentAvailable >= newMonthlyPayment
      invariant currentPaymentAvailable == newMonthlyPayment + TotalPayment(allDebts[1..i])
      invariant totalMonthsToDebtFree + SnowballMonths(allDebts[i..], currentPaymentAvailable)
                == newMonths + SnowballMonths(allDebts[1..], newMonthlyPayment)
    {
      var debt := allDebts[i];
      var paymentForThisDebt := currentPaymentAvailable + debt.payment;
      var monthsForThisDebt := Ceil(debt.amount / paymentForThisDebt);
      assert allDebts[i..][1..] == allDebts[i + 1..];
      assert allDebts[1..i + 1][..i - 1] == allDebts[1..i];
      totalMonthsToDebtFree := totalMonthsToDebtFree + monthsForThisDebt;
      currentPaymentAvailable := paymentForThisDebt;
    }
    assert allDebts[|allDebts|..] == [];
    assert allDebts[1..|allDebts|] == allDebts[1..];
  }
}
