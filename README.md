# Portugal Finance Planner 2026 — plan calculation, modelled in Dafny

The planner is a single-page React wizard. Once a household has entered its
income, expenses, loans, credit card, savings and investments, `calculatePlan`
turns that snapshot into a plan:

- **aggregates**: monthly and yearly income (the holiday and Christmas
  bonuses, *subsídios*, count only in the yearly figure), fixed and variable
  expenses, loan and card payments, disposable income, savings and expense
  rates, housing and debt ratios, the 6-month emergency-fund target and gap,
  and interest;
- **an avalanche debt plan**: non-mortgage loans plus the credit card, ordered
  by rate, highest first;
- **prioritised recommendations**: a five-tier chain picks one primary
  recommendation (starter fund of €1000, debt elimination, full emergency
  fund, invest 15%, optimise). Supplementary rules add advice on excess
  savings, negative savings, housing cost, subscriptions and bonus pay. The
  list is then sorted by priority;
- **a 2026 projection**: the expected savings and the end-of-year balance.

The model follows the source's own form. Value computations are functions
over datatypes: aggregation, the avalanche list, the tier chain, projections
and the loan-list edits. Three loops are methods with loop invariants, each
proved against a recursive specification function: the month-by-month
amortisation, the snowball chain and the years-to-independence search. The
recommendation list is built by methods that push and unshift in the
source's order. The final in-place sort is a stable insertion sort on
sequences.

Modules, one per file:

| file | module | models |
|---|---|---|
| option.dfy | Optional | `Option` |
| numeric.dfy | Numeric | non-negative money, `Math.max/min/ceil`, powers |
| sorting.dfy | Sorting | sums, counts, the stable sort by key |
| household.dfy | Household | input snapshot, loans, add/update/remove loan |
| aggregation.dfy | Aggregation | every aggregate of the snapshot |
| debt_planner.dfy | DebtPlanner | mortgage filter, card entry, avalanche order, totals |
| amortisation.dfy | Amortisation | the accelerated payoff loop, months saved, snowball loop |
| tiers.dfy | Tiers | the tier guards and chain, the bonus-pay use |
| projection.dfy | Projection | 7% compounding, years to financial independence, end balance |
| recommendations.dfy | Recommendations | priorities, ranks, the advice payloads |
| engine.dfy | Engine | the primary chain and the supplementary rules |
| planner.dfy | Planner | `calculatePlan` as a whole, the health badge |

## Model

| member | source | states |
|---|---|---|
| Household.AddLoan | components/PortugalFinancePlanner2026.jsx:72-84 | the old list is kept as a prefix and exactly one blank loan is appended: the given id, an empty name, zero amount, payment and rate, and zero months |
| Household.Changed | components/PortugalFinancePlanner2026.jsx:89-91 | editing a loan sets the named field to the new value and keeps the id and every other field |
| Household.UpdateLoan | components/PortugalFinancePlanner2026.jsx:86-93 | same length and ids; a loan carrying the id becomes that loan with the change applied, every other loan is unchanged |
| Household.RemoveLoan | components/PortugalFinancePlanner2026.jsx:95-100 | a loan is in the result exactly when it was in the list and its id differs |
| Household.RemoveLoanAppend | components/PortugalFinancePlanner2026.jsx:95-100 | removal distributes over concatenation |
| Household.RemoveAbsentId | components/PortugalFinancePlanner2026.jsx:95-100 | removing an id no loan carries returns the list unchanged |
| Household.AddThenRemove | components/PortugalFinancePlanner2026.jsx:72-100 | adding a loan under a fresh id and removing that id gives back the original list |
| Household.AddKeepsIdsUnique | components/PortugalFinancePlanner2026.jsx:72-84 | a fresh id keeps the ids unique |
| Household.RemoveAfterUpdate | components/PortugalFinancePlanner2026.jsx:86-100 | removing an id after editing it equals removing it directly |
| Household.RemoveIdempotent | components/PortugalFinancePlanner2026.jsx:95-100 | removing the same id twice equals removing it once |
| Aggregation.Aggregate | components/PortugalFinancePlanner2026.jsx:105-166 | expenses and income are non-negative; the emergency-fund gap is non-negative and is zero exactly when savings reach the fund; with zero income every ratio is 0 |
| Aggregation.MonthlyBudgetIgnoresSubsidios | components/PortugalFinancePlanner2026.jsx:103-122 | changing only the bonus-pay fields leaves monthly income, expenses, disposable income, savings rate and fund unchanged, and moves yearly income by exactly the change in bonus total |
| Aggregation.SubsidiosDefaults | components/PortugalFinancePlanner2026.jsx:108-114 | without the flag the bonus total is 0; with it, each unset (zero) bonus counts as one month of salary and each set bonus as its own amount: both set gives holiday + Christmas, only the holiday bonus unset gives salary + Christmas, only the Christmas bonus unset gives holiday + salary, both unset gives two months of salary |
| Aggregation.YearlyIncomeIsTwelveMonthsPlusExtras | components/PortugalFinancePlanner2026.jsx:116-122 | yearly income is 12 times the monthly income plus other yearly income plus the bonus total |
| Aggregation.ExpensesDecompose | components/PortugalFinancePlanner2026.jsx:125-147 | total expenses are fixed plus variable plus loan payments plus the card payment, and disposable plus expenses equals income |
| Aggregation.RatesPartitionIncome | components/PortugalFinancePlanner2026.jsx:154-156 | with positive income, savings rate plus expense ratio is 100 |
| Aggregation.NegativeRateIffOverspending | components/PortugalFinancePlanner2026.jsx:147-155 | the savings rate is negative exactly when income is positive and expenses exceed it |
| Aggregation.RateThresholdIsShareOfIncome | components/PortugalFinancePlanner2026.jsx:154-155 | with positive income, a savings rate of at least pct means saving at least pct% of income each month |
| Aggregation.EmergencyGapCloses | components/PortugalFinancePlanner2026.jsx:150-152 | the fund is 6 months of expenses; savings plus the gap reach the fund; the gap never exceeds the fund and is positive exactly when savings fall short |
| Aggregation.InterestNonNegative | components/PortugalFinancePlanner2026.jsx:158-166 | monthly interest is non-negative and yearly interest is twelve times it |
| DebtPlanner.Lower | components/PortugalFinancePlanner2026.jsx:172-176 | lower-casing keeps the length and maps every character |
| DebtPlanner.ContainsIffOccurs | components/PortugalFinancePlanner2026.jsx:172-176 | `includes` holds exactly when the keyword occurs at some position |
| DebtPlanner.NonMortgageLoans | components/PortugalFinancePlanner2026.jsx:172-176 | a loan is kept exactly when its lower-cased name contains none of habitação, casa, mortgage |
| DebtPlanner.NonMortgageLoansAppend | components/PortugalFinancePlanner2026.jsx:172-176 | the filter distributes over concatenation, so kept loans stay in the order the user entered them |
| DebtPlanner.NonMortgageLoansKeepsAll | components/PortugalFinancePlanner2026.jsx:172-176 | a list without mortgage names passes the filter unchanged |
| DebtPlanner.LoanEntries | components/PortugalFinancePlanner2026.jsx:178-185 | one debt entry per kept loan, in order |
| DebtPlanner.CardEntry | components/PortugalFinancePlanner2026.jsx:186-192 | the card entry carries the card's balance, payment and rate; its months are 999 without a payment and otherwise the least whole number of payments covering the balance |
| DebtPlanner.CardIsNotMortgage | components/PortugalFinancePlanner2026.jsx:172-192 | the card's name matches no mortgage keyword |
| DebtPlanner.AvalancheIsPermutation | components/PortugalFinancePlanner2026.jsx:178-193 | the sorted list holds exactly the kept loans and, when there is card debt, the card entry |
| DebtPlanner.AvalancheIsDescendingAndStable | components/PortugalFinancePlanner2026.jsx:193 | rates never increase along the list, and entries with equal rates keep their input order |
| DebtPlanner.AvalancheExcludesMortgages | components/PortugalFinancePlanner2026.jsx:172-193 | no entry's name matches a mortgage keyword |
| DebtPlanner.HeadHasHighestRate | components/PortugalFinancePlanner2026.jsx:229 | the first entry, the one attacked first, has the highest rate |
| DebtPlanner.TotalsSplit | components/PortugalFinancePlanner2026.jsx:195-196 | the total debt and payment are the loans' sums plus the card's share, both non-negative |
| DebtPlanner.PositiveTotalHasTarget | components/PortugalFinancePlanner2026.jsx:228-229 | a positive total debt means the list has a first entry |
| Amortisation.Run | components/PortugalFinancePlanner2026.jsx:245-251 | the month count stays within the 600 cap; a non-negative balance stays non-negative and ends at zero or at the cap; at a non-negative rate the interest only grows |
| Amortisation.Amortise | components/PortugalFinancePlanner2026.jsx:240-251 | the loop returns the schedule `Run` specifies: converged within 600 months or capped; at a non-negative rate the interest is non-negative |
| Amortisation.StalledPaymentIsCapped | components/PortugalFinancePlanner2026.jsx:245-251 | a payment no larger than the monthly interest never shrinks the balance and ends capped |
| Amortisation.PaidInOneMonth | components/PortugalFinancePlanner2026.jsx:245-251 | a payment covering balance plus one month's interest converges in one month with that interest |
| Amortisation.InterestFreeMatchesLinearEstimate | components/PortugalFinancePlanner2026.jsx:245-251 | at a zero rate the loop takes ceil(balance/payment) months and charges no interest, the same estimate as the card entry's |
| Amortisation.AsWrittenMonthsSavedOnStalledDebt | components/PortugalFinancePlanner2026.jsx:253 | as written, a 10000 debt at 24% a year paid 200 a month is capped and reports -560 months saved |
| Amortisation.MonthsSavedOnlyWhenPaidOff | components/PortugalFinancePlanner2026.jsx:253 | corrected: months saved are reported exactly when the simulated balance reached zero, and then they plus the payoff month equal the original estimate |
| Amortisation.SnowballMonths | components/PortugalFinancePlanner2026.jsx:257-266 | with a positive payment available, the months to clear the remaining debts are non-negative |
| Amortisation.Snowball | components/PortugalFinancePlanner2026.jsx:257-266 | the loop's total is the target's months plus `SnowballMonths` of the other debts, never below the target's months; the available payment ends as the new payment plus every other minimum, never below the new payment |
| Tiers.ClassifyIsFirstMatch | components/PortugalFinancePlanner2026.jsx:205-411 | a tier is chosen exactly when its guard holds and no earlier guard does |
| Tiers.ChainIsExhaustive | components/PortugalFinancePlanner2026.jsx:205-411 | for every snapshot one of the five branches fires |
| Tiers.LaterGuardsAreExclusive | components/PortugalFinancePlanner2026.jsx:228-375 | the guards of tiers 2 to 5 never hold together, so only tier 1 depends on the chain's order |
| Tiers.StarterFundOverlapsFullFund | components/PortugalFinancePlanner2026.jsx:206-305 | the guards of tiers 1 and 3 can both hold, and then tier 1 wins |
| Tiers.SavingsAtTargetSkipsFullFund | components/PortugalFinancePlanner2026.jsx:305-375 | savings exactly at the fund, with no debt, skip tier 3 and land in tier 5 exactly when the savings rate is at least 15, else tier 4 |
| Tiers.SubsidioUseFollowsTier | components/PortugalFinancePlanner2026.jsx:502-516 | the bonus-pay use is the starter fund, debt, emergency fund or investment exactly when the tier chain picks tier 1, 2, 3 or 4/5 |
| Projection.CompoundedClosedForm | components/PortugalFinancePlanner2026.jsx:343-346 | the year-by-year balance equals the lump-sum growth 1.07^n plus the annuity value ((1.07^n - 1)/0.07) times the yearly amount |
| Projection.CompoundedGrows | components/PortugalFinancePlanner2026.jsx:386-391 | with non-negative start and contributions, the balance is non-negative and grows with the years |
| Projection.YearsToIndependence | components/PortugalFinancePlanner2026.jsx:384-391 | the loop stops within 50 years at the first year whose balance reaches the need, or at 50 |
| Projection.SearchResultIsUnique | components/PortugalFinancePlanner2026.jsx:384-391 | at most one year count meets the loop's exit condition with no earlier year reaching the need |
| Projection.ExpectedSavings | components/PortugalFinancePlanner2026.jsx:581-582 | the expected savings are max(0, yearly disposable income): either 0 or the yearly disposable, never below either |
| Projection.EndBalance | components/PortugalFinancePlanner2026.jsx:583 | the end balance never falls below current savings and exceeds them by exactly the expected savings |
| Projection.LumpSumGrows | components/PortugalFinancePlanner2026.jsx:417-419 | the 10, 20 and 30-year projections of a lump sum never fall below it and grow with the horizon |
| Recommendations.Rank | components/PortugalFinancePlanner2026.jsx:577-580 | ranks lie in -1..4 and -1 belongs to EMERGÊNCIA alone |
| Recommendations.AsWrittenCompareIsInconsistent | components/PortugalFinancePlanner2026.jsx:577-580 | as written, the comparator ties EMERGÊNCIA with both Crítica and Baixa although those two differ |
| Recommendations.EmergencyAlertSortsFirst | components/PortugalFinancePlanner2026.jsx:442-444 | corrected: with EMERGÊNCIA ranked -1, any alert in the list is first after sorting |
| Recommendations.MonthsToSave | components/PortugalFinancePlanner2026.jsx:207-208 | with a positive surplus, the months are the least whole number that covers the amount; otherwise 999 |
| Recommendations.StarterFundAdvice | components/PortugalFinancePlanner2026.jsx:206-226 | Crítica priority; the amount needed is positive and tops savings up to €1000; the months to save are `MonthsToSave` of that amount and the disposable income |
| Recommendations.EmergencyFundAdvice | components/PortugalFinancePlanner2026.jsx:305-332 | Muito Alta priority; the target is the given fund; the amount needed is positive and tops savings up to it; the months to save are `MonthsToSave` of that amount; the existing investments are reported as given |
| Recommendations.InvestAdvice | components/PortugalFinancePlanner2026.jsx:334-373 | Alta priority; the monthly target is 15% of income and the current saving is the disposable income, the gap being their difference; the yearly investment is 12 months of the target; the projections are the 30-year compounding of the yearly target and of the existing investments, and the total is their sum |
| Recommendations.ExcessSavingsAdvice | components/PortugalFinancePlanner2026.jsx:414-440 | Média priority; the 10, 20 and 30-year figures are the excess compounded at 7% over those years, never below the excess and growing with the horizon |
| Recommendations.HousingAdvice | components/PortugalFinancePlanner2026.jsx:463-481 | Média priority; the yearly saving is 12 months of the housing share above 30% of income, positive when housing exceeds 30% of a positive income |
| Recommendations.PriorityOf | components/PortugalFinancePlanner2026.jsx:205-531 | the priority each kind of entry is created with (Crítica for the starter fund and the debt plan, Muito Alta for the emergency fund, Alta for investing, the attack order and bonus pay, Média for excess savings and housing, Baixa for optimisation and subscriptions, Emergência for the alert); Emergência is given to the negative-savings alert and to nothing else |
| Engine.StandingOf | components/PortugalFinancePlanner2026.jsx:195-206 | the tier chain reads current savings, the avalanche total, the fund and the savings rate |
| Engine.DebtEliminationAdvice | components/PortugalFinancePlanner2026.jsx:228-286 | the target is the first avalanche entry; the extra payment is max(half the disposable income, 100); the original months are the target's estimate and the original interest a month's interest on the full amount for each of them; the payoff is the amortisation schedule at the new payment; months saved are the corrected figure; interest saved is original interest minus payoff interest; the debt-free month adds the snowball months; freed payments are the sum of all minimums |
| Engine.OptimizeAdvice | components/PortugalFinancePlanner2026.jsx:375-411 | 25 years of expenses as the target; the year count is the first year within 50 whose balance reaches it, else 50, and it is flagged reached exactly when met; retirement age is 30 plus the years |
| Engine.PrimaryRecommendations | components/PortugalFinancePlanner2026.jsx:205-411 | one primary recommendation of the tier the chain selects, with that tier's priority and step label (Crítica/PASSO 1, Crítica/PASSO 2, Muito Alta/PASSO 3, Alta/PASSO 4, Baixa/PARABÉNS) and the snapshot's figures, followed by the attack-order entry (Alta, the avalanche list) exactly when tier 2 fires with more than one debt |
| Engine.ExcessRule | components/PortugalFinancePlanner2026.jsx:414-419 | when the rule fires, the excess is savings minus the fund, and its 10, 20 and 30-year figures are it compounded at 7% |
| Engine.AlertRule | components/PortugalFinancePlanner2026.jsx:442-447 | EMERGÊNCIA priority; with a negative savings rate the shortfall is what expenses exceed income by, and positive |
| Engine.HousingRule | components/PortugalFinancePlanner2026.jsx:463-466 | above 35%, the yearly saving of a cut to 30% is 12 times rent plus condominium minus 30% of income, and positive |
| Engine.SubscriptionRule | components/PortugalFinancePlanner2026.jsx:483-488 | Baixa priority; the yearly waste is 12 months of the subscriptions, and above 5% of income it exceeds 60% of a month's income |
| Engine.SubsidioRule | components/PortugalFinancePlanner2026.jsx:502-520 | Alta priority; the total is the year's bonus pay; its use is the starter fund, paying off the named first debt, the emergency fund or investing exactly when the tier chain picks tier 1, 2, 3 or 4/5 |
| Engine.RulesConsistent | components/PortugalFinancePlanner2026.jsx:413-531 | each supplementary entry whose rule fires agrees with the snapshot: its condition holds and its figures are the snapshot's |
| Engine.SupplementaryRules | components/PortugalFinancePlanner2026.jsx:413-531 | the alert is put in front when the savings rate is negative; the excess-savings, housing, subscription and bonus-pay advice are appended in that order, each exactly when its condition holds |
| Engine.BuildRecommendations | components/PortugalFinancePlanner2026.jsx:205-531 | the list is exactly: the alert when the rate is negative, then the primary entries, then the excess-savings, housing (above 35%), subscription (above 5% of income) and bonus-pay entries each iff its rule fires, in that order; hence exactly one primary entry, one attack-order entry iff tier 2 with several debts, the alert first; every entry has the priority and step label of its kind, the tier the chain picks and the figures the snapshot determines |
| Planner.CalculatePlan | components/PortugalFinancePlanner2026.jsx:102-590 | the plan carries the snapshot's aggregates; the list as built is exactly the rules' layout (alert, primary entries, excess savings, housing, subscriptions, bonus pay) with each entry's priority, step and figures fixed by its kind and the snapshot; the returned list is that list sorted by rank with the stable insertion sort, so a stable permutation of it that still holds all of the above; the monthly target is max(0, disposable); the expected savings are max(0, yearly disposable) and the end balance is savings plus them; yearly interest is 12 months of interest |
| Planner.SortedListFacts | components/PortugalFinancePlanner2026.jsx:577-580 | sorting by rank is a stable permutation and keeps every count, every entry's consistency and the alert in front |
| Planner.HealthCountsThresholds | components/PortugalFinancePlanner2026.jsx:1253-1260 | the badge's level is the number of thresholds 0, 5, 10, 15, 20 the savings rate reaches |
| Planner.HealthIsMonotone | components/PortugalFinancePlanner2026.jsx:1253-1260 | a higher savings rate never shows a worse badge |
| Planner.HealthExtremes | components/PortugalFinancePlanner2026.jsx:1253-1260 | Crítico exactly below 0, Excelente exactly from 20 |

## Left out

- Rendering, the wizard steps, React state and `setPlan`/`setStep`: these are UI code. The plan value is the model's result.
- Dates: the debt-free and fund-complete dates (`new Date()`, `setMonth`, `toLocaleDateString`) are reported as month counts.
- Text: `toFixed` formatting and the `action`, `impact`, `timeline` and `actionSteps` strings. Recommendations carry their priority, step and numeric payload only.
- Floating point: money is an exact non-negative `real`. `Math.pow`, division and `Math.ceil` are exact, so IEEE-754 rounding is not modelled.
- Input coercion: `parseFloat`/`parseInt(... || 0)` and the form's string-to-number handling are not modelled. Inputs are already numeric and non-negative. The yes/no fields are booleans. The one `||` default that matters is kept: an unset bonus falls back to the salary.
- `weightedInterestRate`: it is computed but never read, and it can be 0/0 when every loan is zero.
- Loan ids: `Date.now()` is replaced by an id parameter. `Household.AddKeepsIdsUnique` assumes the id is fresh, which the source does not guarantee.
- Lower-casing: `DebtPlanner.Lower` covers ASCII and Latin-1 letters only, not full Unicode case mapping.
- The in-place `Array.prototype.sort` is modelled as a function, a stable insertion sort over a sequence. ECMAScript requires `sort` to be stable since ES2019, so no in-place swaps or aliasing are modelled.
- Planner.CalculatePlan: the plan is a value and is not stored in component state. The model's `Plan` keeps the snapshot and the aggregates whole and does not copy them into the source's nested `income/expenses/debt/savings/ratios` objects.
- Engine.OptimizeAdvice: `reachedTarget` is a flag the source does not compute. It makes explicit that a result of 50 years can mean the cap was hit.
- Savings exactly at the recommended fund: the full-fund tier's guard is a strict `<` (line 305), so a household with at least €1000 saved, no non-mortgage debt and savings exactly at the fund skips tier 3. It lands in tier 5 when its savings rate is at least 15%, else in tier 4 (`Tiers.SavingsAtTargetSkipsFullFund`). The household never sees a "fund complete, no gap" branch of tier 3; the model follows the code.

## Findings

| source | as written | input that shows it | evidently intended | confidence | as-written member | corrected member |
|---|---|---|---|---|---|---|
| components/PortugalFinancePlanner2026.jsx:577-580 | the priority table has no entry for 'EMERGÊNCIA', so `priority[a] - priority[b]` is NaN, which the sort treats as "equal"; the comparator is then inconsistent (EMERGÊNCIA ties with both Crítica and Baixa) and the position of the alert after sorting is implementation-defined | savings rate below 0 with any primary recommendation: the alert is unshifted to index 0, then sorted by an inconsistent comparator | the alert stays first, as the `unshift` at line 444 intends; give it rank -1 | not executed | Recommendations.AsWrittenCompareIsInconsistent | Recommendations.EmergencyAlertSortsFirst |
| components/PortugalFinancePlanner2026.jsx:245-253 | `monthsSaved = originalMonths - newMonths` also when the 600-month cap stopped the loop with a balance left, so a payment that never clears the debt reports a large negative saving | a 10000 debt at 24% a year paid 200 a month with a 40-month original estimate: the balance never falls, the loop stops at 600, and `monthsSaved` is -560 | months saved only for a schedule that actually paid the debt off | not executed | Amortisation.AsWrittenMonthsSavedOnStalledDebt | Amortisation.MonthsSavedOnlyWhenPaidOff |
