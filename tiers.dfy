/**
 * The five primary tiers of the recommendation engine, evaluated as an
 * ordered guard chain (first match wins), and the use of bonus pay, which
 * repeats the same chain.
 */
module Tiers {
  import opened Numeric
  import opened Optional

  /** Tier 1 threshold: the €1000 starter fund. */
  const StarterFundTarget: real := 1000.0
  /** Tier 4/5 threshold: a 15% savings rate. */
  const TargetSavingsRate: real := 15.0

  datatype Tier = StarterFund | DebtElimination | FullEmergencyFund | Invest15 | Optimize

  /** What the guards read. */
  datatype Standing = Standing(
    currentSavings: Money,
    totalNonMortgageDebt: Money,
    recommendedEmergencyFund: Money,
    savingsRate: real)

  /** Position of a tier in the chain. */
  function Index(t: Tier): nat
  {
    match t
    case StarterFund => 0
    case DebtElimination => 1
    case FullEmergencyFund => 2
    case Invest15 => 3
    case Optimize => 4
  }

  /** Each tier's condition exactly as written in its `if`. */
  predicate Guard(t: Tier, s: Standing)
  {
    match t
    case StarterFund => s.currentSavings < StarterFundTarget
    case DebtElimination => s.totalNonMortgageDebt > 0.0 && s.currentSavings >= StarterFundTarget
    case FullEmergencyFund => s.currentSavings < s.recommendedEmergencyFund && s.totalNonMortgageDebt == 0.0
    case Invest15 =>
      s.savingsRate < TargetSavingsRate && s.currentSavings >= s.recommendedEmergencyFund
      && s.totalNonMortgageDebt == 0.0
    case Optimize =>
      s.savingsRate >= TargetSavingsRate && s.currentSavings >= s.recommendedEmergencyFund
      && s.totalNonMortgageDebt == 0.0
  }

  /** The if / else-if chain: the first tier whose guard holds, if any. */
  function Classify(s: Standing): Option<Tier>
  {
    if Guard(StarterFund, s) then Some(StarterFund)
    else if Guard(DebtElimination, s) then Some(DebtElimination)
    else if Guard(FullEmergencyFund, s) then Some(FullEmergencyFund)
    else if Guard(Invest15, s) then Some(Invest15)
    else if Guard(Optimize, s) then Some(Optimize)
    else None
  }

  /** A tier fires exactly when its guard holds and no earlier guard does. */
  lemma ClassifyIsFirstMatch(s: Standing, t: Tier)
    ensures Classify(s) == Some(t)
            <==> Guard(t, s) && forall u: Tier :: Index(u) < Index(t) ==> !Guard(u, s)
  {
    if Guard(t, s) && forall u: Tier :: Index(u) < Index(t) ==> !Guard(u, s) {
      assert Index(StarterFund) == 0 && Index(DebtElimination) == 1;
      assert Index(FullEmergencyFund) == 2 && Index(Invest15) == 3;
    }
  }

  /** With non-negative amounts the chain never falls through: some tier always fires. */
  lemma ChainIsExhaustive(s: Standing)
    ensures Classify(s).Some?
  {
  }

  /** Tiers 2 to 5 are mutually exclusive as written; only the starter-fund
      guard overlaps others, and the chain's order resolves that overlap. */
  lemma LaterGuardsAreExclusive(s: Standing, t: Tier, u: Tier)
    requires t != u && t != StarterFund && u != StarterFund
    ensures !(Guard(t, s) && Guard(u, s))
  {
  }

  /** The starter-fund guard does overlap a later one: savings of 500 with no
      debt and a 6000 emergency target satisfy both tier 1 and tier 3. */
  lemma StarterFundOverlapsFullFund()
    ensures Guard(StarterFund, Standing(500.0, 0.0, 6000.0, 10.0))
    ensures Guard(FullEmergencyFund, Standing(500.0, 0.0, 6000.0, 10.0))
    ensures Classify(Standing(500.0, 0.0, 6000.0, 10.0)) == Some(StarterFund)
  {
  }

  /** Savings exactly equal to the emergency target skip tier 3 (whose guard
      is strict) and land in tier 4 or 5. */
  lemma SavingsAtTargetSkipsFullFund(s: Standing)
    requires s.currentSavings == s.recommendedEmergencyFund
    requires s.currentSavings >= StarterFundTarget && s.totalNonMortgageDebt == 0.0
    ensures Classify(s) == Some(Invest15) || Classify(s) == Some(Optimize)
    ensures Classify(s) == Some(Optimize) <==> s.savingsRate >= TargetSavingsRate
  {
  }

  /** What the bonus pay is to be used for. */
  datatype SubsidioUse =
    | CompleteStarterFund
    | PayOffDebt(target: string)
    | BuildEmergencyFund
    | InvestForFuture

  /** `allDebts[0]?.name || 'dívida'`. */
  function TargetName(firstDebtName: Option<string>): string
  {
    if firstDebtName.Some? && firstDebtName.value != "" then firstDebtName.value else "dívida"
  }

  /** The second chain, at lines 506-515 of the planner component. */
  function SubsidioUseFor(s: Standing, firstDebtName: Option<string>): SubsidioUse
  {
    if s.currentSavings < StarterFundTarget then CompleteStarterFund
    else if s.totalNonMortgageDebt > 0.0 then PayOffDebt(TargetName(firstDebtName))
    else if s.currentSavings < s.recommendedEmergencyFund then BuildEmergencyFund
    else InvestForFuture
  }

  /** The bonus-pay advice follows the household's tier: starter fund, debt,
      emergency fund, and investing for both investment tiers. */
  lemma SubsidioUseFollowsTier(s: Standing, firstDebtName: Option<string>)
    ensures Classify(s) == Some(StarterFund) <==> SubsidioUseFor(s, firstDebtName) == CompleteStarterFund
    ensures Classify(s) == Some(DebtElimination) <==> SubsidioUseFor(s, firstDebtName).PayOffDebt?
    ensures Classify(s) == Some(FullEmergencyFund) <==> SubsidioUseFor(s, firstDebtName) == BuildEmergencyFund
    ensures Classify(s) == Some(Invest15) || Classify(s) == Some(Optimize)
            <==> SubsidioUseFor(s, firstDebtName) == InvestForFuture
  {
  }
}
