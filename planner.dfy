/**
 * calculatePlan's result: the aggregates, the recommendations ordered by
 * priority, and the end-of-2026 projection; plus the savings-rate health
 * badge the plan view shows.
 */
module Planner {
  import opened Numeric
  import opened Sorting
  import opened Household
  import opened Aggregation
  import opened Projection
  import opened Recommendations
  import opened Engine
  import opened Optional
  import opened DebtPlanner
  import opened Tiers

  datatype Projection2026 = Projection2026(expectedSavings: real, endBalance: real, interestPaid: real)

  /** The plan object: the inputs it echoes, every aggregate, the savings
      target, the sorted recommendations and the 2026 projection. */
  datatype Plan = Plan(
    finances: Finances,
    aggregates: Aggregates,
    monthlyTarget: real,
    recommendations: seq<Recommendation>,
    projection2026: Projection2026)

  /** What calculatePlan's list holds for a snapshot: one primary
      recommendation, the attack order and each supplementary entry exactly
      when its rule fires, the overspending alert in front, and every entry
      consistent with the snapshot. */
  ghost predicate Recommended(f: Finances, recs: seq<Recommendation>)
  {
    var a := Aggregate(f);
    && CountBy(recs, IsPrimary) == 1
    && CountBy(recs, IsAttackOrder)
       == (if Classify(StandingOf(f)) == Some(DebtElimination) && |AvalancheOrder(f)| > 1 then 1 else 0)
    && CountBy(recs, IsExcessSavings) == (if ExcessSavingsFires(f) then 1 else 0)
    && CountBy(recs, IsNegativeSavings) == (if a.savingsRate < 0.0 then 1 else 0)
    && CountBy(recs, IsHousing) == (if a.housingRatio > 35.0 then 1 else 0)
    && CountBy(recs, IsSubscription) == (if f.subscriptions > a.averageMonthlyIncome * 0.05 then 1 else 0)
    && CountBy(recs, IsSubsidio) == (if f.receivesSubsidios then 1 else 0)
    && (a.savingsRate < 0.0 ==> |recs| > 0 && IsNegativeSavings(recs[0]))
    && (forall i :: 0 <= i < |recs| ==> Consistent(f, recs[i]))
  }

  /** The whole computation behind the "generate plan" button. `built` is the
      list before the final sort and `primary` the tier chain's part of it. */
  method CalculatePlan(f: Finances) returns (plan: Plan, ghost primary: seq<Recommendation>, ghost built: seq<Recommendation>)
    ensures plan.finances == f && plan.aggregates == Aggregate(f)
    ensures plan.monthlyTarget >= 0.0 && plan.monthlyTarget >= Aggregate(f).monthlyDisposable
    ensures plan.monthlyTarget == 0.0 || plan.monthlyTarget == Aggregate(f).monthlyDisposable
    // the list as the rules build it, entry by entry
    ensures PrimaryShape(f, primary) && built == Assembled(f, primary)
    ensures Recommended(f, built)
    // the final sort: a stable reordering by priority that keeps all of the above
    ensures plan.recommendations == ByPriority(built)
    ensures multiset(plan.recommendations) == multiset(built)
    ensures SortedBy(plan.recommendations, RankKey)
    ensures forall k :: FilterKey(plan.recommendations, RankKey, k) == FilterKey(built, RankKey, k)
    ensures Recommended(f, plan.recommendations)
    // the projection
    ensures plan.projection2026.expectedSavings >= 0.0
    ensures plan.projection2026.expectedSavings >= Aggregate(f).yearlyDisposable
    ensures plan.projection2026.expectedSavings == 0.0
            || plan.projection2026.expectedSavings == Aggregate(f).yearlyDisposable
    ensures plan.projection2026.endBalance == f.currentSavings + plan.projection2026.expectedSavings
    ensures plan.projection2026.interestPaid == 12.0 * Aggregate(f).monthlyInterestPaid
  {
    var a := Aggregate(f);
    var recs;
    recs, primary := BuildRecommendations(f);
    built := recs;
    var sorted := ByPriority(recs);
    SortedListFacts(f, recs);
    InterestNonNegative(f);
    plan := Plan(f, a, Max(0.0, a.monthlyDisposable), sorted,
                 Projection2026(ExpectedSavings(a.yearlyDisposable),
                                EndBalance(f.currentSavings, a.yearlyDisposable),
                                a.yearlyInterestPaid));
  }

  /** The sort is a stable permutation by rank and keeps everything the built
      list holds, with the alert still in front. */
  lemma SortedListFacts(f: Finances, recs: seq<Recommendation>)
    requires Recommended(f, recs)
    ensures multiset(ByPriority(recs)) == multiset(recs)
    ensures SortedBy(ByPriority(recs), RankKey)
    ensures forall k :: FilterKey(ByPriority(recs), RankKey, k) == FilterKey(recs, RankKey, k)
    ensures Recommended(f, ByPriority(recs))
  {
    var sorted := ByPriority(recs);
    SortByFacts(recs, RankKey);
    SortByPreservesCount(recs, RankKey, IsPrimary);
    SortByPreservesCount(recs, RankKey, IsAttackOrder);
    SortByPreservesCount(recs, RankKey, IsExcessSavings);
    SortByPreservesCount(recs, RankKey, IsNegativeSavings);
    SortByPreservesCount(recs, RankKey, IsHousing);
    SortByPreservesCount(recs, RankKey, IsSubscription);
    SortByPreservesCount(recs, RankKey, IsSubsidio);
    forall i | 0 <= i < |sorted| ensures Consistent(f, sorted[i]) {
      assert sorted[i] in multiset(recs);
    }
    if Aggregate(f).savingsRate < 0.0 {
      var i :| 0 <= i < |recs| && IsNegativeSavings(recs[i]);
      assert recs[i].priority == Emergencia;
      EmergencyAlertSortsFirst(recs);
    }
  }

  /** The savings-rate badge of the plan view, best first. */
  datatype Health = Excelente | MuitoBom | Bom | Razoavel | Preocupante | Critico

  /** Lower bounds of the badges from Razoável up to Excelente. */
  const HealthThresholds: seq<real> := [0.0, 5.0, 10.0, 15.0, 20.0]

  function HealthStatus(ratio: real): Health
  {
    if ratio >= 20.0 then Excelente
    else if ratio >= 15.0 then MuitoBom
    else if ratio >= 10.0 then Bom
    else if ratio >= 5.0 then Razoavel
    else if ratio >= 0.0 then Preocupante
    else Critico
  }

  /** Position of a badge on the scale, Crítico lowest. */
  function Level(h: Health): nat
  {
    match h
    case Critico => 0
    case Preocupante => 1
    case Razoavel => 2
    case Bom => 3
    case MuitoBom => 4
    case Excelente => 5
  }

  /** The badge is as high as the number of thresholds the rate reaches. */
  lemma HealthCountsThresholds(ratio: real)
    ensures Level(HealthStatus(ratio)) == CountBy(HealthThresholds, t => ratio >= t)
  {
    var p := t => ratio >= t;
    var s := HealthThresholds;
    assert s[1..][1..][1..][1..][1..] == [];
    assert CountBy(s[1..][1..][1..][1..], p) == if ratio >= 20.0 then 1 else 0;
    assert CountBy(s[1..][1..][1..], p) == (if ratio >= 15.0 then 1 else 0) + CountBy(s[1..][1..][1..][1..], p);
    assert CountBy(s[1..][1..], p) == (if ratio >= 10.0 then 1 else 0) + CountBy(s[1..][1..][1..], p);
    assert CountBy(s[1..], p) == (if ratio >= 5.0 then 1 else 0) + CountBy(s[1..][1..], p);
  }

  /** A higher savings rate never shows a worse badge. */
  lemma HealthIsMonotone(r1: real, r2: real)
    requires r1 <= r2
    ensures Level(HealthStatus(r1)) <= Level(HealthStatus(r2))
  {
  }

  /** The two ends of the scale. */
  lemma HealthExtremes(ratio: real)
    ensures HealthStatus(ratio) == Critico <==> ratio < 0.0
    ensures HealthStatus(ratio) == Excelente <==> ratio >= 20.0
  {
  }
}
