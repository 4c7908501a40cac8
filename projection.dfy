/**
 * Compound-growth projections at the assumed 7% yearly return: the annuity
 * formula of the investment tiers, lump-sum growth, the years-to-financial-
 * independence search of the optimisation tier and the one-year projection.
 */
module Projection {
  import opened Numeric

  /** Cap of the years-to-independence search. */
  const MaxYears: nat := 50
  /** Financial independence is 25 times yearly expenses (the 4% rule). */
  const IndependenceMultiple: real := 25.0

  /** Balance after `years` of `balance * 1.07 + yearly`, starting from `start`. */
  function Compounded(start: real, yearly: real, years: nat): real
  {
    if years == 0 then start else Compounded(start, yearly, years - 1) * GrowthFactor + yearly
  }

  /** `yearly * ((Math.pow(1.07, years) - 1) / 0.07)`: a level yearly contribution grown for `years`. */
  function AnnuityValue(yearly: real, years: nat): real
  {
    yearly * ((Pow(GrowthFactor, years) - 1.0) / AnnualReturn)
  }

  /** `principal * Math.pow(1.07, years)`. */
  function LumpSum(principal: real, years: nat): real
  {
    principal * Pow(GrowthFactor, years)
  }

  /** The closed forms of the tiers agree with compounding year by year: the
      starting balance grows as a lump sum and the contributions as an annuity. */
  lemma {:induction false} CompoundedClosedForm(start: real, yearly: real, years: nat)
    ensures Compounded(start, yearly, years) == LumpSum(start, years) + AnnuityValue(yearly, years)
  {
    if years > 0 {
      CompoundedClosedForm(start, yearly, years - 1);
      var p := Pow(GrowthFactor, years - 1);
      assert Pow(GrowthFactor, years) == GrowthFactor * p;
      calc {
        Compounded(start, yearly, years);
        (start * p + yearly * ((p - 1.0) / AnnualReturn)) * GrowthFactor + yearly;
        start * (GrowthFactor * p) + yearly * ((GrowthFactor * p - 1.0) / AnnualReturn);
      }
    }
  }

  /** With non-negative money in and no withdrawals, the balance never falls. */
  lemma {:induction false} CompoundedGrows(start: real, yearly: real, m: nat, n: nat)
    requires start >= 0.0 && yearly >= 0.0 && m <= n
    ensures 0.0 <= Compounded(start, yearly, m) <= Compounded(start, yearly, n)
  {
    if m < n {
      CompoundedGrows(start, yearly, m, n - 1);
    } else if m > 0 {
      CompoundedGrows(start, yearly, 0, m - 1);
    }
  }

  /** The while loop of lines 388-391: the first year (at most 50) whose
      balance reaches `retirementNeeds`, starting from the current savings. */
  method YearsToIndependence(currentSavings: real, yearlyInvestment: real, retirementNeeds: real)
    returns (yearsToFI: nat, accumulated: real)
    ensures yearsToFI <= MaxYears
    ensures accumulated == Compounded(currentSavings, yearlyInvestment, yearsToFI)
    ensures accumulated >= retirementNeeds || yearsToFI == MaxYears
    ensures forall k :: 0 <= k < yearsToFI ==> Compounded(currentSavings, yearlyInvestment, k) < retirementNeeds
  {
    yearsToFI := 0;
    accumulated := currentSavings;
    while accumulated < retirementNeeds && yearsToFI < MaxYears
      invariant yearsToFI <= MaxYears
      invariant accumulated == Compounded(currentSavings, yearlyInvestment, yearsToFI)
      invariant forall k :: 0 <= k < yearsToFI ==> Compounded(currentSavings, yearlyInvestment, k) < retirementNeeds
      decreases MaxYears - yearsToFI
    {
      accumulated := accumulated * GrowthFactor + yearlyInvestment;
      yearsToFI := yearsToFI + 1;
    }
  }

  /** The search's result is determined: any year count meeting its contract
      is the first year the balance reaches the target, or the cap. */
  lemma SearchResultIsUnique(start: real, yearly: real, target: real, y1: nat, y2: nat)
    requires y1 <= MaxYears && y2 <= MaxYears
    requires Compounded(start, yearly, y1) >= target || y1 == MaxYears
    requires Compounded(start, yearly, y2) >= target || y2 == MaxYears
    requires forall k :: 0 <= k < y1 ==> Compounded(start, yearly, k) < target
    requires forall k :: 0 <= k < y2 ==> Compounded(start, yearly, k) < target
    ensures y1 == y2
  {
  }

  /** The projection of the coming year: what is left over, never negative. */
  function ExpectedSavings(yearlyDisposable: real): (r: real)
    ensures r >= 0.0 && r >= yearlyDisposable
    ensures r == 0.0 || r == yearlyDisposable
  {
    Max(0.0, yearlyDisposable)
  }

  /** End-of-year balance: savings plus the year's non-negative surplus. */
  function EndBalance(currentSavings: real, yearlyDisposable: real): (r: real)
    ensures r >= currentSavings
    ensures r - currentSavings == ExpectedSavings(yearlyDisposable)
  {
    currentSavings + ExpectedSavings(yearlyDisposable)
  }

  /** Growth of a lump sum never loses money and grows with the horizon. */
  lemma LumpSumGrows(principal: Money, m: nat, n: nat)
    requires m <= n
    ensures principal <= LumpSum(principal, m) <= LumpSum(principal, n)
  {
    PowAtLeastOne(GrowthFactor, m);
    PowMonotone(GrowthFactor, m, n);
    MulMonotone(1.0, Pow(GrowthFactor, m), principal);
    MulMonotone(Pow(GrowthFactor, m), Pow(GrowthFactor, n), principal);
  }
}
