/**
 * The KPI formula engine of the TypeScript generation
 * (src/services/kpi-calculator.ts): sums one group's rows in yuan, reports
 * money in 万元 (ten thousand yuan), derives the ratios in percent from the
 * yuan sums, and optionally rounds the finished result.
 */
module KpiCalculator {
  import opened Wrappers
  import opened Seqs
  import opened MathUtils
  import opened Grouping
  import TimeProgress

  /**
   * One data row, with the fields the engines read.  Optional source fields
   * carry their falsy default: `secondLevelOrganization` is "" when absent,
   * `premiumPlanYuan` and `weekNumber` are 0 when absent.
   */
  datatype Row = Row(
    thirdLevelOrganization: string,
    secondLevelOrganization: string,
    customerCategory: string,
    businessTypeCategory: string,
    signedPremiumYuan: real,
    maturedPremiumYuan: real,
    reportedClaimPaymentYuan: real,
    expenseAmountYuan: real,
    policyCount: real,
    claimCaseCount: real,
    premiumPlanYuan: real,
    weekNumber: int)

  function OrgOf(r: Row): string { r.thirdLevelOrganization }
  function CustomerCategoryOf(r: Row): string { r.customerCategory }
  function BusinessTypeOf(r: Row): string { r.businessTypeCategory }
  function SignedOf(r: Row): real { r.signedPremiumYuan }
  function MaturedOf(r: Row): real { r.maturedPremiumYuan }
  function ClaimOf(r: Row): real { r.reportedClaimPaymentYuan }
  function ExpenseOf(r: Row): real { r.expenseAmountYuan }
  function PoliciesOf(r: Row): real { r.policyCount }
  function ClaimCasesOf(r: Row): real { r.claimCaseCount }
  function PlanOf(r: Row): real { r.premiumPlanYuan }

  /**
   * The result record.  Field names translate the source's keys:
   * signedPremium 签单保费, maturedPremium 满期保费, earnedPremium 已赚保费,
   * reportedClaim 已报案赔付, expenseAmount 费用额, policyCount 保单件数,
   * claimCaseCount 赔案件数, lossRatio 满期赔付率, variableCostRatio 变动成本率,
   * combinedCostRatio 综合成本率, expenseRatio 费用率, contributionRatio 贡献率,
   * marginalContributionRatio 满期边际贡献率, claimFrequency 出险率,
   * maturityRatio 满期率, perClaimAverage 案均赔款, marginalContribution
   * 满期边际贡献额, premiumAchievement 保费达成率, annualPlanAchievement
   * 年计划达成率, annualPlan 年度保费计划.  None stands for `undefined`.
   */
  datatype KpiResult = KpiResult(
    signedPremium: real,
    maturedPremium: real,
    earnedPremium: Option<real>,
    reportedClaim: real,
    expenseAmount: real,
    policyCount: real,
    claimCaseCount: real,
    lossRatio: real,
    variableCostRatio: real,
    combinedCostRatio: real,
    expenseRatio: real,
    contributionRatio: real,
    marginalContributionRatio: Option<real>,
    claimFrequency: real,
    maturityRatio: real,
    perClaimAverage: real,
    marginalContribution: real,
    premiumAchievement: Option<real>,
    annualPlanAchievement: Option<real>,
    annualPlan: Option<real>)

  /** `KPICalculateOptions`: a manual annual plan in yuan, and whether to round (default true). */
  datatype KpiOptions = KpiOptions(yearPlan: Option<real>, enableRounding: bool)

  const DefaultOptions: KpiOptions := KpiOptions(None, true)

  /** The summed row plans in yuan (`premium_plan_yuan`). */
  function PlanFromData(data: seq<Row>): real {
    SumBy(data, PlanOf)
  }

  /**
   * `yearPlan || (planFromData > 0 ? planFromData : undefined)`: a non-zero
   * manual plan wins, else a positive sum of row plans, else no plan.
   */
  function EffectivePlan(data: seq<Row>, yearPlan: Option<real>): (plan: Option<real>)
    ensures yearPlan.Some? && yearPlan.value != 0.0 ==> plan == yearPlan
    ensures (yearPlan.None? || yearPlan.value == 0.0) ==>
              (plan.Some? <==> PlanFromData(data) > 0.0) && (plan.Some? ==> plan.value == PlanFromData(data))
    ensures plan.Some? ==> plan.value != 0.0
  {
    if yearPlan.Some? && yearPlan.value != 0.0 then yearPlan
    else if PlanFromData(data) > 0.0 then Some(PlanFromData(data))
    else None
  }

  /** The week the rows report: the first row's `week_number` when it is set, else 49. */
  function WeekOf(data: seq<Row>): int {
    if |data| > 0 && data[0].weekNumber != 0 then data[0].weekNumber else TimeProgress.AnchorWeek
  }

  /** JavaScript `x ? x : undefined` on an optional number. */
  function Truthy(x: Option<real>): (r: Option<real>)
    ensures r.Some? <==> x.Some? && x.value != 0.0
    ensures r.Some? ==> r == x
  {
    if x.Some? && x.value != 0.0 then x else None
  }

  /** `safeDivide(numerator, denominator) * 100`: a percentage, 0 on a zero denominator. */
  function Percent(numerator: real, denominator: real): real {
    SafeDivide(numerator, denominator) * 100.0
  }

  /** A zero denominator gives a percentage of 0. */
  lemma PercentZero(numerator: real, denominator: real)
    ensures denominator == 0.0 ==> Percent(numerator, denominator) == 0.0
  {
  }

  /** A percentage times its non-zero denominator is 100 times its numerator. */
  lemma PercentScales(numerator: real, denominator: real)
    requires denominator != 0.0
    ensures Percent(numerator, denominator) * denominator == 100.0 * numerator
  {
    var q := SafeDivide(numerator, denominator);
    assert q * denominator == numerator;
    assert (q * 100.0) * denominator == 100.0 * (q * denominator);
  }

  /** 贡献率: what is left of 100 after the variable cost ratio. */
  function ContributionRatio(variableCost: real): real {
    100.0 - variableCost
  }

  /** 满期边际贡献额 in 万元: the matured premium times the contribution ratio read as a fraction. */
  function MarginalContribution(maturedYuan: real, contribution: real): (r: real)
    ensures r * 1000000.0 == maturedYuan * contribution
  {
    YuanToWan(maturedYuan) * (contribution / 100.0)
  }

  /** 保费达成率: signed premium over the effective plan in percent, absent without a plan. */
  function Achievement(signed: real, plan: Option<real>): (r: Option<real>)
    ensures r.Some? <==> plan.Some?
    ensures r.Some? && plan.value != 0.0 ==> r.value * plan.value == 100.0 * signed
  {
    if plan.Some? then Some(Percent(signed, plan.value)) else None
  }

  /**
   * 年计划达成率: the achievement rate over the time progress `days / 365`,
   * absent when there is no achievement rate or when it comes out 0.
   */
  function PaceAchievement(achievement: Option<real>, daysPassed: int): (r: Option<real>)
    requires 1 <= daysPassed <= TimeProgress.DaysInYear
    ensures r.Some? <==> achievement.Some? && achievement.value != 0.0
    ensures r.Some? ==> r.value * daysPassed as real == achievement.value * TimeProgress.DaysInYear as real
  {
    if achievement.None? then None
    else
      var timeProgress := daysPassed as real / TimeProgress.DaysInYear as real;
      var pace := SafeDivide(achievement.value, timeProgress * 100.0) * 100.0;
      assert timeProgress * 100.0 * TimeProgress.DaysInYear as real == daysPassed as real * 100.0;
      assert pace * daysPassed as real == achievement.value * TimeProgress.DaysInYear as real;
      Truthy(Some(pace))
  }

  /** The six sums `calculateKPIs` starts from, in yuan and in counts. */
  datatype Totals = Totals(signed: real, matured: real, claim: real, expense: real, policies: real, cases: real)

  /** `sumBy` over the group for each summed column. */
  function TotalsOf(data: seq<Row>): Totals {
    Totals(SumBy(data, SignedOf), SumBy(data, MaturedOf), SumBy(data, ClaimOf),
           SumBy(data, ExpenseOf), SumBy(data, PoliciesOf), SumBy(data, ClaimCasesOf))
  }

  /**
   * The body of `calculateKPIs` after the sums: unit conversion to 万元 and
   * every ratio, computed from the yuan sums with zero denominators giving 0.
   */
  function KpisFromTotals(t: Totals, plan: Option<real>, daysPassed: int): (k: KpiResult)
    requires 1 <= daysPassed <= TimeProgress.DaysInYear
    // money in 万元, counts as summed
    ensures k.signedPremium * 10000.0 == t.signed && k.maturedPremium * 10000.0 == t.matured
    ensures k.reportedClaim * 10000.0 == t.claim && k.expenseAmount * 10000.0 == t.expense
    ensures k.earnedPremium == Some(k.maturedPremium)
    ensures k.policyCount == t.policies && k.claimCaseCount == t.cases
    // the cost identities hold exactly
    ensures k.variableCostRatio == k.lossRatio + k.expenseRatio
    ensures k.combinedCostRatio == k.variableCostRatio
    ensures k.contributionRatio == 100.0 - k.variableCostRatio
    ensures k.marginalContributionRatio == Some(k.contributionRatio)
    // plan fields exist exactly when a plan does
    ensures k.premiumAchievement.Some? <==> plan.Some?
    ensures k.annualPlan.Some? <==> plan.Some?
    ensures plan.Some? ==> k.annualPlan.value * 10000.0 == plan.value
    ensures k.annualPlanAchievement.Some? <==> k.premiumAchievement.Some? && k.premiumAchievement.value != 0.0
    // each ratio is the guarded quotient of two yuan sums
    ensures k.lossRatio == Percent(t.claim, t.matured) && k.expenseRatio == Percent(t.expense, t.signed)
    ensures k.maturityRatio == Percent(t.matured, t.signed) && k.claimFrequency == Percent(t.cases, t.policies)
    ensures k.perClaimAverage == SafeDivide(t.claim, t.cases)
    ensures k.marginalContribution == MarginalContribution(t.matured, k.contributionRatio)
    ensures k.premiumAchievement == Achievement(t.signed, plan)
    ensures k.annualPlanAchievement == PaceAchievement(k.premiumAchievement, daysPassed)
  {
    var lossRatio := Percent(t.claim, t.matured);
    var expenseRatio := Percent(t.expense, t.signed);
    var variableCost := lossRatio + expenseRatio;
    var contribution := ContributionRatio(variableCost);
    var maturedWan := YuanToWan(t.matured);
    var achievement := Achievement(t.signed, plan);
    KpiResult(
      signedPremium := YuanToWan(t.signed),
      maturedPremium := maturedWan,
      earnedPremium := Some(maturedWan),
      reportedClaim := YuanToWan(t.claim),
      expenseAmount := YuanToWan(t.expense),
      policyCount := t.policies,
      claimCaseCount := t.cases,
      lossRatio := lossRatio,
      variableCostRatio := variableCost,
      combinedCostRatio := variableCost,
      expenseRatio := expenseRatio,
      contributionRatio := contribution,
      marginalContributionRatio := Some(contribution),
      claimFrequency := Percent(t.cases, t.policies),
      maturityRatio := Percent(t.matured, t.signed),
      perClaimAverage := SafeDivide(t.claim, t.cases),
      marginalContribution := MarginalContribution(t.matured, contribution),
      premiumAchievement := achievement,
      annualPlanAchievement := PaceAchievement(achievement, daysPassed),
      annualPlan := if plan.Some? then Some(YuanToWan(plan.value)) else None)
  }

  /**
   * The ratios of `calculateKPIs` come from the yuan sums, and a zero
   * denominator gives 0, never NaN.
   */
  lemma KpiRatios(t: Totals, plan: Option<real>, daysPassed: int)
    requires 1 <= daysPassed <= TimeProgress.DaysInYear
    ensures var k := KpisFromTotals(t, plan, daysPassed);
      && (t.matured == 0.0 ==> k.lossRatio == 0.0)
      && (t.matured != 0.0 ==> k.lossRatio * t.matured == 100.0 * t.claim)
      && (t.signed == 0.0 ==> k.expenseRatio == 0.0 && k.maturityRatio == 0.0)
      && (t.signed != 0.0 ==> k.expenseRatio * t.signed == 100.0 * t.expense)
      && (t.signed != 0.0 ==> k.maturityRatio * t.signed == 100.0 * t.matured)
      && (t.cases == 0.0 ==> k.perClaimAverage == 0.0)
      && (t.cases != 0.0 ==> k.perClaimAverage * t.cases == t.claim)
      && (t.policies == 0.0 ==> k.claimFrequency == 0.0)
      && (t.policies != 0.0 ==> k.claimFrequency * t.policies == 100.0 * t.cases)
      && k.marginalContribution * 1000000.0 == t.matured * k.contributionRatio
  {
    hide *;
    PercentZero(t.claim, t.matured);
    PercentZero(t.expense, t.signed);
    PercentZero(t.matured, t.signed);
    PercentZero(t.cases, t.policies);
    if t.matured != 0.0 {
      PercentScales(t.claim, t.matured);
    }
    if t.signed != 0.0 {
      PercentScales(t.expense, t.signed);
      PercentScales(t.matured, t.signed);
    }
    if t.policies != 0.0 {
      PercentScales(t.cases, t.policies);
    }
  }

  /**
   * 保费达成率 is the signed premium over the plan in percent; 年计划达成率
   * scales it by 365 / days passed, so it is 保费达成率 / time progress.
   */
  lemma KpiPlanRates(t: Totals, plan: Option<real>, daysPassed: int)
    requires 1 <= daysPassed <= TimeProgress.DaysInYear
    ensures var k := KpisFromTotals(t, plan, daysPassed);
      && (plan.Some? && plan.value != 0.0 ==> k.premiumAchievement.value * plan.value == 100.0 * t.signed)
      && (k.annualPlanAchievement.Some? ==>
            k.annualPlanAchievement.value * daysPassed as real == k.premiumAchievement.value * TimeProgress.DaysInYear as real)
  {
  }

  /** `calculateKPIs` before its rounding pass, for the group's sums, effective plan and week. */
  function RawKpis(data: seq<Row>, yearPlan: Option<real>): KpiResult {
    KpisFromTotals(TotalsOf(data), EffectivePlan(data, yearPlan), TimeProgress.DaysPassed(WeekOf(data)))
  }

  /** The field is absent, or 0 (falsy); rounding turns both into absent. */
  predicate Falsy(x: Option<real>) {
    x.None? || x.value == 0.0
  }

  /** `x` is `y` rounded to `decimals` places: the grid point of `Round`'s window. */
  predicate RoundedFrom(x: real, y: real, decimals: nat) {
    OnGrid(x, decimals) && InWindow(x, y, decimals)
  }

  /** `kpi.f ? round(kpi.f, d) : undefined`. */
  function RoundTruthy(x: Option<real>, decimals: nat): (r: Option<real>)
    ensures r.None? <==> Falsy(x)
    ensures r.Some? ==> RoundedFrom(r.value, x.value, decimals)
  {
    if x.Some? && x.value != 0.0 then Some(Round(x.value, decimals)) else None
  }

  /**
   * `roundKPIResult`: money and 案均赔款/出险率 to 2 places, other ratios to
   * 1 place, counts untouched; an optional field that is 0 becomes absent.
   */
  function RoundKpiResult(k: KpiResult): (r: KpiResult)
    ensures r.policyCount == k.policyCount && r.claimCaseCount == k.claimCaseCount
    ensures RoundedFrom(r.signedPremium, k.signedPremium, 2) && RoundedFrom(r.maturedPremium, k.maturedPremium, 2)
    ensures RoundedFrom(r.reportedClaim, k.reportedClaim, 2) && RoundedFrom(r.expenseAmount, k.expenseAmount, 2)
    ensures RoundedFrom(r.marginalContribution, k.marginalContribution, 2)
    ensures RoundedFrom(r.perClaimAverage, k.perClaimAverage, 2) && RoundedFrom(r.claimFrequency, k.claimFrequency, 2)
    ensures RoundedFrom(r.lossRatio, k.lossRatio, 1) && RoundedFrom(r.variableCostRatio, k.variableCostRatio, 1)
    ensures RoundedFrom(r.combinedCostRatio, k.combinedCostRatio, 1) && RoundedFrom(r.expenseRatio, k.expenseRatio, 1)
    ensures RoundedFrom(r.contributionRatio, k.contributionRatio, 1) && RoundedFrom(r.maturityRatio, k.maturityRatio, 1)
    ensures r.earnedPremium.None? <==> Falsy(k.earnedPremium)
    ensures r.annualPlan.None? <==> Falsy(k.annualPlan)
    ensures r.marginalContributionRatio.None? <==> Falsy(k.marginalContributionRatio)
    ensures r.premiumAchievement.None? <==> Falsy(k.premiumAchievement)
    ensures r.annualPlanAchievement.None? <==> Falsy(k.annualPlanAchievement)
    ensures r.earnedPremium.Some? ==> RoundedFrom(r.earnedPremium.value, k.earnedPremium.value, 2)
    ensures r.annualPlan.Some? ==> RoundedFrom(r.annualPlan.value, k.annualPlan.value, 2)
    ensures r.marginalContributionRatio.Some? ==> RoundedFrom(r.marginalContributionRatio.value, k.marginalContributionRatio.value, 1)
    ensures r.premiumAchievement.Some? ==> RoundedFrom(r.premiumAchievement.value, k.premiumAchievement.value, 1)
    ensures r.annualPlanAchievement.Some? ==> RoundedFrom(r.annualPlanAchievement.value, k.annualPlanAchievement.value, 1)
  {
    k.(
      signedPremium := Round(k.signedPremium, 2),
      maturedPremium := Round(k.maturedPremium, 2),
      earnedPremium := RoundTruthy(k.earnedPremium, 2),
      reportedClaim := Round(k.reportedClaim, 2),
      expenseAmount := Round(k.expenseAmount, 2),
      marginalContribution := Round(k.marginalContribution, 2),
      annualPlan := RoundTruthy(k.annualPlan, 2),
      perClaimAverage := Round(k.perClaimAverage, 2),
      lossRatio := Round(k.lossRatio, 1),
      variableCostRatio := Round(k.variableCostRatio, 1),
      combinedCostRatio := Round(k.combinedCostRatio, 1),
      expenseRatio := Round(k.expenseRatio, 1),
      contributionRatio := Round(k.contributionRatio, 1),
      marginalContributionRatio := RoundTruthy(k.marginalContributionRatio, 1),
      maturityRatio := Round(k.maturityRatio, 1),
      claimFrequency := Round(k.claimFrequency, 2),
      premiumAchievement := RoundTruthy(k.premiumAchievement, 1),
      annualPlanAchievement := RoundTruthy(k.annualPlanAchievement, 1))
  }

  /** `calculateKPIs`: the raw result, rounded last when rounding is enabled. */
  function CalculateKpis(data: seq<Row>, options: KpiOptions): (k: KpiResult)
    ensures k.policyCount == SumBy(data, PoliciesOf) && k.claimCaseCount == SumBy(data, ClaimCasesOf)
    ensures !options.enableRounding ==> k.signedPremium * 10000.0 == SumBy(data, SignedOf)
    ensures options.enableRounding ==> RoundedFrom(k.signedPremium, SumBy(data, SignedOf) / 10000.0, 2)
    ensures k.premiumAchievement.Some? ==> EffectivePlan(data, options.yearPlan).Some?
    ensures !options.enableRounding ==> k == RawKpis(data, options.yearPlan)
    ensures options.enableRounding ==> k == RoundKpiResult(RawKpis(data, options.yearPlan))
  {
    var raw := RawKpis(data, options.yearPlan);
    if options.enableRounding then RoundKpiResult(raw) else raw
  }

  /** One group's entry in a breakdown: its name, KPIs, row count and whether any row carries a plan. */
  datatype GroupKpiResult = GroupKpiResult(name: string, kpi: KpiResult, rowCount: nat, hasYearPlan: bool)

  /** `(row.premium_plan_yuan || 0) > 0` for some row. */
  predicate HasYearPlan(data: seq<Row>) {
    exists i :: 0 <= i < |data| && data[i].premiumPlanYuan > 0.0
  }

  /** `calculateGroupKPIs`: one result per group, in group order. */
  function CalculateGroupKpis(groups: seq<Bucket<Row>>, options: KpiOptions): (r: seq<GroupKpiResult>)
    ensures |r| == |groups|
    ensures forall i :: 0 <= i < |r| ==>
              && r[i].name == groups[i].name
              && r[i].kpi == CalculateKpis(groups[i].items, options)
              && r[i].rowCount == |groups[i].items|
              && (r[i].hasYearPlan <==> exists j :: 0 <= j < |groups[i].items| && groups[i].items[j].premiumPlanYuan > 0.0)
  {
    seq(|groups|, i requires 0 <= i < |groups| =>
      GroupKpiResult(groups[i].name, CalculateKpis(groups[i].items, options), |groups[i].items|, HasYearPlan(groups[i].items)))
  }

  /** Every field an empty group gets, before rounding. */
  predicate EmptyGroupFields(k: KpiResult) {
    && k.signedPremium == 0.0 && k.maturedPremium == 0.0 && k.reportedClaim == 0.0 && k.expenseAmount == 0.0
    && k.policyCount == 0.0 && k.claimCaseCount == 0.0
    && k.lossRatio == 0.0 && k.expenseRatio == 0.0 && k.variableCostRatio == 0.0 && k.combinedCostRatio == 0.0
    && k.maturityRatio == 0.0 && k.claimFrequency == 0.0 && k.perClaimAverage == 0.0
    && k.contributionRatio == 100.0 && k.marginalContribution == 0.0
    && k.premiumAchievement.None? && k.annualPlanAchievement.None? && k.annualPlan.None?
  }

  /**
   * An empty group: every sum and every cost ratio is 0, the contribution
   * ratio is the full 100, and without a manual plan there are no plan
   * fields, rounded or not.
   */
  lemma EmptyGroupKpis(options: KpiOptions)
    requires options.yearPlan.None?
    ensures EmptyGroupFields(CalculateKpis([], options))
  {
    EmptyGroupRaw();
    hide *;
    if options.enableRounding {
      RoundedZeros(RawKpis([], None));
    }
  }

  /** The unrounded result for an empty group without a manual plan. */
  lemma EmptyGroupRaw()
    ensures EmptyGroupFields(RawKpis([], None))
  {
    var zero := Totals(0.0, 0.0, 0.0, 0.0, 0.0, 0.0);
    EmptyTotals();
    hide Percent, SafeDivide, MarginalContribution, Achievement, PaceAchievement, RawKpis, TotalsOf, KpisFromTotals;
    KpiRatios(zero, None, 340);
  }

  /** An empty group sums to zero, has no plan and is read as week 49, day 340. */
  lemma EmptyTotals()
    ensures RawKpis([], None) == KpisFromTotals(Totals(0.0, 0.0, 0.0, 0.0, 0.0, 0.0), None, 340)
  {
    var empty: seq<Row> := [];
    assert TotalsOf(empty) == Totals(0.0, 0.0, 0.0, 0.0, 0.0, 0.0);
    assert EffectivePlan(empty, None) == None;
    assert TimeProgress.DaysPassed(WeekOf(empty)) == 340;
  }

  /** Rounding keeps the zeros of an empty group and its full contribution ratio. */
  lemma RoundedZeros(raw: KpiResult)
    requires EmptyGroupFields(raw)
    ensures EmptyGroupFields(RoundKpiResult(raw))
  {
    RoundZero(1);
    RoundZero(2);
    RoundUnique(100.0, 1, 100.0);
  }

  /**
   * 500000 yuan signed against a manual plan of 1000000 yuan in week 49
   * (day 340): 保费达成率 50.0 and 年计划达成率 50 * 365 / 340, which rounds to 53.7.
   */
  lemma PlanAchievementExample()
    ensures var row := Row("成都", "", "个人", "家用车", 500000.0, 0.0, 0.0, 0.0, 0.0, 0.0, 0.0, 49);
      var k := CalculateKpis([row], KpiOptions(Some(1000000.0), true));
      k.premiumAchievement == Some(50.0) && k.annualPlanAchievement == Some(53.7)
  {
    var row := Row("成都", "", "个人", "家用车", 500000.0, 0.0, 0.0, 0.0, 0.0, 0.0, 0.0, 49);
    assert [row][..0] == [];
    assert SumBy([row], SignedOf) == 500000.0;
    assert TimeProgress.DaysPassed(WeekOf([row])) == 340;
    var raw := RawKpis([row], Some(1000000.0));
    assert raw.premiumAchievement == Some(50.0);
    assert raw.annualPlanAchievement.value * 340.0 == 50.0 * 365.0;
    RoundUnique(50.0, 1, 50.0);
    RoundUnique(raw.annualPlanAchievement.value, 1, 53.7);
  }

  /** `TotalsOf` depends only on which rows the group holds, not on their order. */
  lemma TotalsPermutation(a: seq<Row>, b: seq<Row>)
    requires multiset(a) == multiset(b)
    ensures TotalsOf(a) == TotalsOf(b)
    ensures PlanFromData(a) == PlanFromData(b)
  {
    SumByPermutation(a, b, SignedOf);
    SumByPermutation(a, b, MaturedOf);
    SumByPermutation(a, b, ClaimOf);
    SumByPermutation(a, b, ExpenseOf);
    SumByPermutation(a, b, PoliciesOf);
    SumByPermutation(a, b, ClaimCasesOf);
    SumByPermutation(a, b, PlanOf);
  }

  /**
   * Reordering a group's rows leaves its KPIs unchanged, as long as the
   * week read from the first row stays the same.
   */
  lemma KpisPermutationInvariant(a: seq<Row>, b: seq<Row>, options: KpiOptions)
    requires multiset(a) == multiset(b) && WeekOf(a) == WeekOf(b)
    ensures CalculateKpis(a, options) == CalculateKpis(b, options)
  {
    TotalsPermutation(a, b);
  }
}
