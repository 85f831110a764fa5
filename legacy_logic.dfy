/**
 * The legacy browser engine (js/logic.js): a `Mapper` that resolves raw
 * business-type labels through the compatibility aliases and the canonical
 * table, a `KpiCalculator` bound to a reporting week, and a `ReportGenerator`
 * that maps the rows, totals them, groups them by organisation, category and
 * business type, and ranks each grouping by signed premium.
 *
 * Row figures are exact reals: `parseFloat(x) || 0` is taken to have produced
 * a number already.  A JavaScript object used as a dictionary of arrays is a
 * sequence of named buckets in first-seen key order.
 */
module LegacyLogic {
  import opened Wrappers
  import opened Seqs
  import opened Grouping
  import opened StableSort
  import opened MathUtils
  import opened TimeProgress
  import opened LegacyConstants

  // ---------------------------------------------------------------------
  // Rows

  /** The fields of a CSV row the legacy engine reads (numeric ones already parsed). */
  datatype LegacyRow = LegacyRow(
    organizationName: string,
    category: string,
    businessTypeCategory: string,
    uiFullName: string,
    signedPremiumYuan: real,
    maturedPremiumYuan: real,
    policyCount: real,
    claimCaseCount: real,
    reportedClaimPaymentYuan: real,
    expenseAmountYuan: real,
    premiumPlanYuan: real)

  function LegacySigned(r: LegacyRow): real { r.signedPremiumYuan }
  function LegacyMatured(r: LegacyRow): real { r.maturedPremiumYuan }
  function LegacyPolicies(r: LegacyRow): real { r.policyCount }
  function LegacyCases(r: LegacyRow): real { r.claimCaseCount }
  function LegacyClaim(r: LegacyRow): real { r.reportedClaimPaymentYuan }
  function LegacyExpense(r: LegacyRow): real { r.expenseAmountYuan }
  function LegacyPlan(r: LegacyRow): real { r.premiumPlanYuan }

  // ---------------------------------------------------------------------
  // Mapper

  /** What `mapBusinessType` returns for a non-empty label: a canonical entry, or a fallback object. */
  datatype MappedType =
    | Known(entry: BusinessType)
    | Fallback(uiFullName: string, uiShortLabel: string, category: string, businessTypeCategory: string)

  /** The canonical map after the `forEach` over `items`: raw label and full name both key the entry, later entries win. */
  function CanonicalMapOf(items: seq<BusinessType>): map<string, BusinessType>
    decreases |items|
  {
    if items == [] then map[]
    else
      var last := items[|items| - 1];
      CanonicalMapOf(items[..|items| - 1])[last.csvRawValue := last][last.uiFullName := last]
  }

  /** The compatibility map after the `forEach` over `items`: alias label to canonical label, later entries win. */
  function CompatibilityMapOf(items: seq<CompatibilityMapping>): map<string, string>
    decreases |items|
  {
    if items == [] then map[]
    else
      var last := items[|items| - 1];
      CompatibilityMapOf(items[..|items| - 1])[last.csvRawValue := last.mapsTo]
  }

  /** `_buildCanonicalMap`. */
  method BuildCanonicalMap(items: seq<BusinessType>) returns (mapping: map<string, BusinessType>)
    ensures mapping == CanonicalMapOf(items)
  {
    mapping := map[];
    for i := 0 to |items|
      invariant mapping == CanonicalMapOf(items[..i])
    {
      assert items[..i + 1][..i] == items[..i];
      mapping := mapping[items[i].csvRawValue := items[i]];
      mapping := mapping[items[i].uiFullName := items[i]];
    }
    assert items[..|items|] == items;
  }

  /** `_buildCompatibilityMap`. */
  method BuildCompatibilityMap(items: seq<CompatibilityMapping>) returns (mapping: map<string, string>)
    ensures mapping == CompatibilityMapOf(items)
  {
    mapping := map[];
    for i := 0 to |items|
      invariant mapping == CompatibilityMapOf(items[..i])
    {
      assert items[..i + 1][..i] == items[..i];
      mapping := mapping[items[i].csvRawValue := items[i].mapsTo];
    }
    assert items[..|items|] == items;
  }

  /** A label keys the canonical map exactly when some entry carries it, and it keys one of those entries. */
  lemma {:induction false} CanonicalMapEntries(items: seq<BusinessType>, k: string)
    ensures k in CanonicalMapOf(items) <==>
              exists i :: 0 <= i < |items| && (items[i].csvRawValue == k || items[i].uiFullName == k)
    ensures k in CanonicalMapOf(items) ==> CanonicalMapOf(items)[k] in items
    decreases |items|
  {
    if items != [] {
      var init := items[..|items| - 1];
      CanonicalMapEntries(init, k);
      if exists i :: 0 <= i < |items| && (items[i].csvRawValue == k || items[i].uiFullName == k) {
        var i :| 0 <= i < |items| && (items[i].csvRawValue == k || items[i].uiFullName == k);
        if i < |items| - 1 {
          assert init[i] == items[i];
        }
      }
    }
  }

  /** A label keys the compatibility map exactly when some alias carries it. */
  lemma {:induction false} CompatibilityMapKeys(items: seq<CompatibilityMapping>, k: string)
    ensures k in CompatibilityMapOf(items) <==> exists j :: 0 <= j < |items| && items[j].csvRawValue == k
    decreases |items|
  {
    if items != [] {
      var init := items[..|items| - 1];
      CompatibilityMapKeys(init, k);
      if exists j :: 0 <= j < |items| && items[j].csvRawValue == k {
        var j :| 0 <= j < |items| && items[j].csvRawValue == k;
        if j < |items| - 1 {
          assert init[j] == items[j];
        }
      }
    }
  }

  /** With distinct labels each listed under its own name, every entry is what its label looks up. */
  lemma {:induction false} CanonicalMapOwn(items: seq<BusinessType>, i: nat)
    requires forall k :: 0 <= k < |items| ==> items[k].csvRawValue == items[k].uiFullName
    requires forall k, l :: 0 <= k < l < |items| ==> items[k].csvRawValue != items[l].csvRawValue
    requires i < |items|
    ensures items[i].csvRawValue in CanonicalMapOf(items)
    ensures CanonicalMapOf(items)[items[i].csvRawValue] == items[i]
    decreases |items|
  {
    var init := items[..|items| - 1];
    if i < |items| - 1 {
      assert forall k :: 0 <= k < |init| ==> init[k] == items[k];
      CanonicalMapOwn(init, i);
      assert items[|items| - 1].csvRawValue != items[i].csvRawValue;
    }
  }

  /** With distinct alias labels, every alias looks up the label it maps to. */
  lemma {:induction false} CompatibilityMapOwn(items: seq<CompatibilityMapping>, j: nat)
    requires forall k, l :: 0 <= k < l < |items| ==> items[k].csvRawValue != items[l].csvRawValue
    requires j < |items|
    ensures items[j].csvRawValue in CompatibilityMapOf(items)
    ensures CompatibilityMapOf(items)[items[j].csvRawValue] == items[j].mapsTo
    decreases |items|
  {
    var init := items[..|items| - 1];
    if j < |items| - 1 {
      assert forall k :: 0 <= k < |init| ==> init[k] == items[k];
      CompatibilityMapOwn(init, j);
      assert items[|items| - 1].csvRawValue != items[j].csvRawValue;
    }
  }

  /** `Mapper`: the two lookup maps built from the business-type table. */
  class Mapper {
    var canonicalMap: map<string, BusinessType>
    var compatibilityMap: map<string, string>

    /** The maps are the ones the constructor builds from the table. */
    ghost predicate Valid()
      reads this
    {
      && canonicalMap == CanonicalMapOf(BusinessTypes)
      && compatibilityMap == CompatibilityMapOf(CompatibilityMappings)
    }

    constructor()
      ensures Valid()
    {
      var canonical := BuildCanonicalMap(BusinessTypes);
      var compatibility := BuildCompatibilityMap(CompatibilityMappings);
      canonicalMap := canonical;
      compatibilityMap := compatibility;
    }

    /**
     * `mapBusinessType`: an empty label maps to nothing; an alias whose target
     * is canonical maps to that entry; then a canonical label maps to its
     * entry; anything else maps to a fallback of category 未知.
     */
    function MapBusinessType(rawValue: string): (r: Option<MappedType>)
      reads this
      ensures r.None? <==> rawValue == ""
      ensures rawValue != "" && rawValue !in compatibilityMap && rawValue !in canonicalMap ==>
                r == Some(Fallback(rawValue, rawValue, "未知", rawValue))
      ensures r.Some? && r.value.Known? ==> r.value.entry in canonicalMap.Values
    {
      if rawValue == "" then None
      else if rawValue in compatibilityMap && compatibilityMap[rawValue] != ""
              && compatibilityMap[rawValue] in canonicalMap then
        Some(Known(canonicalMap[compatibilityMap[rawValue]]))
      else if rawValue in canonicalMap then Some(Known(canonicalMap[rawValue]))
      else Some(Fallback(rawValue, rawValue, "未知", rawValue))
    }
  }

  /** A canonical label, or its full name, maps to its own entry. */
  lemma ResolveCanonical(m: Mapper, i: nat)
    requires m.Valid() && i < |BusinessTypes|
    ensures m.MapBusinessType(BusinessTypes[i].csvRawValue) == Some(Known(BusinessTypes[i]))
    ensures m.MapBusinessType(BusinessTypes[i].uiFullName) == Some(Known(BusinessTypes[i]))
  {
    var raw := BusinessTypes[i].csvRawValue;
    hide BusinessTypes, CompatibilityMappings, AliasTargets;
    CanonicalNamesAgree();
    CanonicalRawValuesUnique();
    AliasesNotCanonical();
    CanonicalMapOwn(BusinessTypes, i);
    CompatibilityMapKeys(CompatibilityMappings, raw);
  }

  /** An alias maps to the canonical entry it points at, exactly as that entry's own label does. */
  lemma ResolveAlias(m: Mapper, j: nat)
    requires m.Valid() && j < |CompatibilityMappings|
    ensures m.MapBusinessType(CompatibilityMappings[j].csvRawValue) == Some(Known(BusinessTypes[AliasTargets[j]]))
    ensures m.MapBusinessType(CompatibilityMappings[j].csvRawValue) == m.MapBusinessType(CompatibilityMappings[j].mapsTo)
  {
    hide BusinessTypes, CompatibilityMappings, AliasTargets;
    AliasTargetsExist();
    AliasRawValuesUnique();
    AliasLabelsNonEmpty();
    CanonicalLabelsNonEmpty();
    CanonicalNamesAgree();
    CanonicalRawValuesUnique();
    CompatibilityMapOwn(CompatibilityMappings, j);
    CanonicalMapOwn(BusinessTypes, AliasTargets[j]);
    ResolveCanonical(m, AliasTargets[j]);
  }

  /** A non-empty label that is neither an alias nor canonical maps to the 未知 fallback. */
  lemma ResolveUnknown(m: Mapper, raw: string)
    requires m.Valid() && raw != ""
    requires forall i :: 0 <= i < |BusinessTypes| ==> BusinessTypes[i].csvRawValue != raw
    requires forall j :: 0 <= j < |CompatibilityMappings| ==> CompatibilityMappings[j].csvRawValue != raw
    ensures m.MapBusinessType(raw) == Some(Fallback(raw, raw, "未知", raw))
  {
    CanonicalNamesAgree();
    CanonicalMapEntries(BusinessTypes, raw);
    CompatibilityMapKeys(CompatibilityMappings, raw);
  }

  /** `{...row, ...mapping}`: the mapping's full name and category replace the row's. */
  function MapRow(mapping: Option<MappedType>, row: LegacyRow): (mapped: LegacyRow)
    ensures mapping.None? ==> mapped == row
    ensures mapping.Some? && mapping.value.Known? ==>
              mapped.uiFullName == mapping.value.entry.uiFullName && mapped.category == mapping.value.entry.category
              && mapped.businessTypeCategory == row.businessTypeCategory
    ensures mapping.Some? && mapping.value.Fallback? ==>
              mapped.uiFullName == mapping.value.uiFullName && mapped.category == mapping.value.category
              && mapped.businessTypeCategory == mapping.value.businessTypeCategory
    ensures mapped.(uiFullName := row.uiFullName, category := row.category, businessTypeCategory := row.businessTypeCategory) == row
  {
    match mapping
    case None => row
    case Some(Known(e)) => row.(uiFullName := e.uiFullName, category := e.category)
    case Some(Fallback(full, _, cat, typeLabel)) => row.(uiFullName := full, category := cat, businessTypeCategory := typeLabel)
  }

  /** `csvData.map(...)` in `processData`. */
  function MappedData(m: Mapper, csvData: seq<LegacyRow>): (mapped: seq<LegacyRow>)
    reads m
    ensures |mapped| == |csvData|
  {
    seq(|csvData|, i reads m requires 0 <= i < |csvData| =>
      MapRow(m.MapBusinessType(csvData[i].businessTypeCategory), csvData[i]))
  }

  // ---------------------------------------------------------------------
  // KPI calculator

  /** The figures `calculateKPIs` returns, all rates in percent. */
  datatype LegacyKpis = LegacyKpis(
    signedPremium: real,
    maturedPremium: real,
    reportedClaim: real,
    expense: real,
    policyCount: real,
    claimCaseCount: real,
    maturedLossRatio: real,
    expenseRatio: real,
    variableCostRatio: real,
    claimFrequency: real,
    averageClaim: real,
    annualPlanAchievement: real,
    timeProgressAchievement: Option<real>,
    maturedMarginRatio: real,
    plan: real)

  /** `KPICalculator`: the time progress of one reporting week. */
  class KpiCalculator {
    var daysPassed: int
    var totalDays: int
    var timeProgress: real

    /** The state the constructor establishes for some week. */
    ghost predicate Valid()
      reads this
    {
      && 1 <= daysPassed <= DaysInYear
      && totalDays == DaysInYear
      && timeProgress == daysPassed as real / totalDays as real
    }

    constructor(week: int)
      ensures Valid() && daysPassed == DaysPassed(week)
    {
      daysPassed := DaysPassed(week);
      totalDays := DaysInYear;
      timeProgress := DaysPassed(week) as real / DaysInYear as real;
    }

    /**
     * `calculateKPIs`: column totals and the ratios built on them; a manual
     * plan, even 0, replaces the plan column's total.
     */
    function CalculateKpis(data: seq<LegacyRow>, manualPlan: Option<real>): (k: LegacyKpis)
      reads this
      ensures k.signedPremium == SumBy(data, LegacySigned) && k.reportedClaim == SumBy(data, LegacyClaim)
      ensures k.maturedPremium == SumBy(data, LegacyMatured) && k.expense == SumBy(data, LegacyExpense)
      ensures k.policyCount == SumBy(data, LegacyPolicies) && k.claimCaseCount == SumBy(data, LegacyCases)
      ensures k.plan == if manualPlan.Some? then manualPlan.value else SumBy(data, LegacyPlan)
      ensures k.maturedPremium != 0.0 ==> k.maturedLossRatio * k.maturedPremium == k.reportedClaim * 100.0
      ensures k.maturedPremium == 0.0 ==> k.maturedLossRatio == 0.0
      ensures k.signedPremium != 0.0 ==> k.expenseRatio * k.signedPremium == k.expense * 100.0
      ensures k.signedPremium == 0.0 ==> k.expenseRatio == 0.0
      ensures ScaledRatio(k.claimFrequency, k.claimCaseCount, k.policyCount, 100.0)
      ensures ScaledRatio(k.averageClaim, k.reportedClaim, k.claimCaseCount, 1.0)
      ensures k.variableCostRatio == k.maturedLossRatio + k.expenseRatio
      ensures k.maturedMarginRatio + k.variableCostRatio == 100.0
      ensures k.timeProgressAchievement.Some? <==> k.plan > 0.0
      ensures k.plan > 0.0 ==> k.annualPlanAchievement * k.plan == k.signedPremium * 100.0
      ensures k.plan <= 0.0 ==> k.annualPlanAchievement == 0.0
    {
      var signed := SumBy(data, LegacySigned);
      var matured := SumBy(data, LegacyMatured);
      var policies := SumBy(data, LegacyPolicies);
      var cases := SumBy(data, LegacyCases);
      var claim := SumBy(data, LegacyClaim);
      var expense := SumBy(data, LegacyExpense);
      var plan := if manualPlan.Some? then manualPlan.value else SumBy(data, LegacyPlan);
      var claimRate := SafeDivide(claim, matured) * 100.0;
      var expenseRate := SafeDivide(expense, signed) * 100.0;
      var costRate := claimRate + expenseRate;
      LegacyKpis(
        signed, matured, claim, expense, policies, cases,
        claimRate, expenseRate, costRate,
        ClaimFrequency(cases, policies),
        AverageClaim(claim, cases),
        if plan > 0.0 then signed / plan * 100.0 else 0.0,
        if plan > 0.0 then Some(SafeDivide(SafeDivide(signed, plan), timeProgress) * 100.0) else None,
        100.0 - costRate,
        plan)
    }
  }

  /** `r` is `part / total * scale`, or 0 when the total is 0 (the `safeDivide` convention). */
  predicate ScaledRatio(r: real, part: real, total: real, scale: real) {
    && (total != 0.0 ==> r * total == part * scale)
    && (total == 0.0 ==> r == 0.0)
  }

  /** `safeDivide(claimCases, policyCount) * 100`: claim cases per hundred policies. */
  function ClaimFrequency(cases: real, policies: real): (r: real)
    ensures ScaledRatio(r, cases, policies, 100.0)
  {
    SafeDivide(cases, policies) * 100.0
  }

  /** `safeDivide(reportedClaim, claimCases)`: the average reported claim per case. */
  function AverageClaim(claim: real, cases: real): (r: real)
    ensures ScaledRatio(r, claim, cases, 1.0)
  {
    SafeDivide(claim, cases)
  }

  /**
   * The time-progress achievement is the annual achievement scaled by the
   * share of the year that has passed.
   */
  lemma TimeAchievementScalesAnnual(c: KpiCalculator, data: seq<LegacyRow>, manualPlan: Option<real>)
    requires c.Valid()
    requires c.CalculateKpis(data, manualPlan).plan > 0.0
    ensures c.CalculateKpis(data, manualPlan).timeProgressAchievement.Some?
    ensures c.CalculateKpis(data, manualPlan).timeProgressAchievement.value * c.daysPassed as real
            == c.CalculateKpis(data, manualPlan).annualPlanAchievement * DaysInYear as real
  {
    hide ScaledRatio;
    var k := c.CalculateKpis(data, manualPlan);
    var a := SafeDivide(k.signedPremium, k.plan);
    var tp := c.timeProgress;
    var d := c.daysPassed as real;
    var x := SafeDivide(a, tp);
    assert tp * 365.0 == d;
    assert x * tp == a;
    assert k.timeProgressAchievement.value == x * 100.0;
    assert a * k.plan == k.signedPremium;
    assert k.annualPlanAchievement == a * 100.0;
    calc {
      x * 100.0 * d;
      x * tp * 365.0 * 100.0;
      a * 100.0 * 365.0;
    }
  }

  // ---------------------------------------------------------------------
  // Report generator

  /** The organisation a row is reported under: `organization_name || '未知'`. */
  function OrgKey(r: LegacyRow): string {
    if r.organizationName != "" then r.organizationName else "未知"
  }

  /** The category a row is reported under: `category || '其他'`. */
  function CategoryKey(r: LegacyRow): string {
    if r.category != "" then r.category else "其他"
  }

  /** The business type a row is reported under: `ui_full_name || business_type_category || '未知'`. */
  function TypeKey(r: LegacyRow): string {
    if r.uiFullName != "" then r.uiFullName
    else if r.businessTypeCategory != "" then r.businessTypeCategory
    else "未知"
  }

  /**
   * The first plan key, in table order, that `org` contains
   * (`Object.keys(...).find(k => org.includes(k))`).
   */
  function FirstPlanMatch(org: string, plans: seq<PlanEntry>): (r: Option<nat>)
    ensures r.Some? ==> r.value < |plans| && Contains(org, plans[r.value].key)
    ensures r.Some? ==> forall k :: 0 <= k < r.value ==> !Contains(org, plans[k].key)
    ensures r.None? ==> forall k :: 0 <= k < |plans| ==> !Contains(org, plans[k].key)
    decreases |plans|
  {
    if plans == [] then None
    else if Contains(org, plans[0].key) then Some(0)
    else
      match FirstPlanMatch(org, plans[1..])
      case None => None
      case Some(i) => Some(i + 1)
  }

  /**
   * The plan amount `PlanFor` reads off a plan table: the amount of the
   * first entry whose key the name contains, 0 when there is none or that
   * key is empty.
   */
  function PlanIn(org: string, plans: seq<PlanEntry>): (plan: real)
    ensures (forall k :: 0 <= k < |plans| ==> !Contains(org, plans[k].key)) ==> plan == 0.0
    ensures forall k ::
              (0 <= k < |plans| && plans[k].key != "" && Contains(org, plans[k].key)
               && (forall j :: 0 <= j < k ==> !Contains(org, plans[j].key))) ==> plan == plans[k].amount
    ensures plan == 0.0 || exists k :: 0 <= k < |plans| && plan == plans[k].amount && Contains(org, plans[k].key)
  {
    match FirstPlanMatch(org, plans)
    case Some(i) => if plans[i].key != "" then plans[i].amount else 0.0
    case None => 0.0
  }

  /**
   * The annual plan of an organisation: the amount of the first plan key
   * its name contains, else 0; positive exactly when some key is contained.
   */
  function PlanFor(org: string): (plan: real)
    ensures plan >= 0.0
    ensures plan > 0.0 <==> exists k :: 0 <= k < |YearPlans| && Contains(org, YearPlans[k].key)
    ensures forall k ::
              (0 <= k < |YearPlans| && Contains(org, YearPlans[k].key)
               && (forall j :: 0 <= j < k ==> !Contains(org, YearPlans[j].key))) ==> plan == YearPlans[k].amount
  {
    PlanForFacts(org);
    PlanIn(org, YearPlans)
  }

  /** The table facts `PlanFor` rests on: every amount positive and every key non-empty. */
  lemma PlanForFacts(org: string)
    ensures PlanIn(org, YearPlans) >= 0.0
    ensures PlanIn(org, YearPlans) > 0.0 <==> exists k :: 0 <= k < |YearPlans| && Contains(org, YearPlans[k].key)
    ensures forall k :: 0 <= k < |YearPlans| ==> YearPlans[k].key != ""
  {
    PlansPositive();
    PlanKeysNonEmpty();
    hide YearPlans;
    var m := FirstPlanMatch(org, YearPlans);
  }

  /**
   * A plan key matches anywhere in the name, and the branch-wide key comes
   * first: 天府 gets its own plan, while a name containing 四川分公司 gets the
   * whole branch's plan even when it also names 本部.
   */
  lemma PlanForExamples()
    ensures PlanFor("天府") == 197300000.0
    ensures PlanFor("四川分公司本部") == 431000000.0
  {
    ShortNotContains("天府", BranchPlanKey);
    assert IsPrefix("天府", "天府");
    assert IsPrefix("四川分公司", "四川分公司本部");
  }

  /** The premium and claim shares of a group, in percent; `None` where the total is 0 (NaN or Infinity in JavaScript). */
  function Share(part: real, total: real): (r: Option<real>)
    ensures r.None? <==> total == 0.0
    ensures r.Some? ==> r.value * total == part * 100.0
  {
    if total == 0.0 then None else Some(part / total * 100.0)
  }

  /** One entry of `dataByOrg`, `dataByCategory` or `dataByBusinessType`. */
  datatype GroupReport = GroupReport(name: string, kpis: LegacyKpis, premiumShare: Option<real>, claimShare: Option<real>)

  function ReportPremium(r: GroupReport): real { r.kpis.signedPremium }
  function ReportName(r: GroupReport): string { r.name }
  function ReportClaim(r: GroupReport): real { r.kpis.reportedClaim }
  function PremiumShareOf(r: GroupReport): real { r.premiumShare.GetOr(0.0) }
  function ClaimShareOf(r: GroupReport): real { r.claimShare.GetOr(0.0) }

  /** The report of one group: its KPIs (organisations with their looked-up plan) and its shares of the summary. */
  function GroupReportOf(c: KpiCalculator, g: Bucket<LegacyRow>, summary: LegacyKpis, withPlan: bool): (r: GroupReport)
    reads c
  {
    var kpis := c.CalculateKpis(g.items, if withPlan then Some(PlanFor(g.name)) else None);
    GroupReport(g.name, kpis, Share(kpis.signedPremium, summary.signedPremium), Share(kpis.reportedClaim, summary.reportedClaim))
  }

  /** `Object.keys(groups).map(...)`: one report per group, in group order. */
  function GroupReports(c: KpiCalculator, gs: seq<Bucket<LegacyRow>>, summary: LegacyKpis, withPlan: bool): (rs: seq<GroupReport>)
    reads c
    ensures |rs| == |gs|
  {
    seq(|gs|, i reads c requires 0 <= i < |gs| => GroupReportOf(c, gs[i], summary, withPlan))
  }

  /** One grouping as the report lists it: the group reports sorted by signed premium, largest first. */
  function RankedReports(c: KpiCalculator, mapped: seq<LegacyRow>, key: LegacyRow -> string, summary: LegacyKpis, withPlan: bool): seq<GroupReport>
    reads c
  {
    SortDesc(GroupReports(c, GroupBy(mapped, key), summary, withPlan), ReportPremium)
  }

  /** The object `processData` returns. */
  datatype Report = Report(
    organization: string,
    week: int,
    summary: LegacyKpis,
    thresholds: Thresholds,
    dataByOrg: seq<GroupReport>,
    dataByCategory: seq<GroupReport>,
    dataByBusinessType: seq<GroupReport>,
    isSingleOrgMode: bool,
    dateRange: string)

  /** The branch-wide plan the summary is measured against. */
  const BranchPlan: real := YearPlans[0].amount

  /**
   * The report `processData` builds with mapper `m` and the week's
   * calculator `c`: the fixed branch header, a summary of all rows measured
   * against the branch-wide plan of 431,000,000 yuan (mapping rows changes
   * none of their figures), and the three ranked groupings.
   */
  function ReportFor(m: Mapper, c: KpiCalculator, csvData: seq<LegacyRow>, week: int): (r: Report)
    reads m, c
    ensures r.organization == "四川" && r.week == week && r.thresholds == LegacyThresholds
    ensures !r.isSingleOrgMode && r.dateRange == "2024.12.01-2024.12.06"
    ensures r.summary.plan == 431000000.0
    ensures r.summary == c.CalculateKpis(MappedData(m, csvData), Some(431000000.0))
    ensures r.summary.signedPremium == SumBy(csvData, LegacySigned) && r.summary.reportedClaim == SumBy(csvData, LegacyClaim)
    ensures r.summary.annualPlanAchievement * 431000000.0 == SumBy(csvData, LegacySigned) * 100.0
  {
    PlansPositive();
    MappedDataKeepsFigures(m, csvData);
    var mapped := MappedData(m, csvData);
    var summary := c.CalculateKpis(mapped, Some(BranchPlan));
    Report(
      "四川", week, summary, LegacyThresholds,
      RankedReports(c, mapped, OrgKey, summary, true),
      RankedReports(c, mapped, CategoryKey, summary, false),
      RankedReports(c, mapped, TypeKey, summary, false),
      false, "2024.12.01-2024.12.06")
  }

  /** The `forEach` that pushes each row onto the array of its key, opening the array on first sight. */
  method CollectGroups(rows: seq<LegacyRow>, key: LegacyRow -> string) returns (groups: seq<Bucket<LegacyRow>>)
    ensures groups == GroupBy(rows, key)
  {
    groups := [];
    for i := 0 to |rows|
      invariant groups == GroupBy(rows[..i], key)
    {
      assert rows[..i + 1][..i] == rows[..i];
      var k := key(rows[i]);
      var j := IndexOfName(groups, k);
      if j < |groups| {
        groups := groups[j := Bucket(groups[j].name, groups[j].items + [rows[i]])];
      } else {
        groups := groups + [Bucket(k, [rows[i]])];
      }
    }
    assert rows[..|rows|] == rows;
  }

  /** `ReportGenerator`: a mapper built once and the calculator of the last processed week. */
  class ReportGenerator {
    var mapper: Mapper
    var calculator: KpiCalculator

    constructor()
      ensures fresh(mapper) && mapper.Valid()
      ensures fresh(calculator) && calculator.Valid() && calculator.daysPassed == DaysPassed(AnchorWeek)
    {
      mapper := new Mapper();
      calculator := new KpiCalculator(AnchorWeek);
    }

    /** `processData`: replaces the calculator by one for `week` and builds the report with it. */
    method ProcessData(csvData: seq<LegacyRow>, week: int) returns (report: Report)
      modifies this
      ensures mapper == old(mapper)
      ensures fresh(calculator) && calculator.Valid() && calculator.daysPassed == DaysPassed(week)
      ensures report == ReportFor(mapper, calculator, csvData, week)
    {
      hide SortDesc, GroupReports, GroupBy, MappedData, PlanFor, YearPlans, SumBy;
      calculator := new KpiCalculator(week);
      var mappedData := MappedData(mapper, csvData);
      var summary := calculator.CalculateKpis(mappedData, Some(BranchPlan));

      var orgs := CollectGroups(mappedData, OrgKey);
      var dataByOrg := GroupReports(calculator, orgs, summary, true);
      dataByOrg := SortDesc(dataByOrg, ReportPremium);

      var cats := CollectGroups(mappedData, CategoryKey);
      var dataByCategory := GroupReports(calculator, cats, summary, false);
      dataByCategory := SortDesc(dataByCategory, ReportPremium);

      var types := CollectGroups(mappedData, TypeKey);
      var dataByBusinessType := GroupReports(calculator, types, summary, false);
      dataByBusinessType := SortDesc(dataByBusinessType, ReportPremium);

      report := Report(
        "四川", week, summary, LegacyThresholds,
        dataByOrg, dataByCategory, dataByBusinessType,
        false, "2024.12.01-2024.12.06");
    }
  }

  // ---------------------------------------------------------------------
  // Properties of the report

  /** Shares of a common total add up to the sum of their parts over that total. */
  lemma {:induction false} SharesAddUp<T>(xs: seq<T>, part: T -> real, share: T -> real, total: real)
    requires total != 0.0
    requires forall i :: 0 <= i < |xs| ==> share(xs[i]) == part(xs[i]) / total * 100.0
    ensures SumBy(xs, share) == SumBy(xs, part) / total * 100.0
    decreases |xs|
  {
    if xs != [] {
      var init := xs[..|xs| - 1];
      assert forall i :: 0 <= i < |init| ==> init[i] == xs[i];
      SharesAddUp(init, part, share, total);
      var a, b := SumBy(init, part), part(xs[|xs| - 1]);
      assert a / total * 100.0 + b / total * 100.0 == (a + b) / total * 100.0;
    }
  }

  /** One group's report carries the group's premium and claim totals. */
  lemma GroupReportFigures(c: KpiCalculator, g: Bucket<LegacyRow>, summary: LegacyKpis, withPlan: bool)
    ensures ReportPremium(GroupReportOf(c, g, summary, withPlan)) == SumBy(g.items, LegacySigned)
    ensures ReportClaim(GroupReportOf(c, g, summary, withPlan)) == SumBy(g.items, LegacyClaim)
  {
  }

  /** The group reports carry the group totals. */
  lemma {:induction false} GroupReportsTotals(c: KpiCalculator, gs: seq<Bucket<LegacyRow>>, summary: LegacyKpis, withPlan: bool)
    ensures SumBy(GroupReports(c, gs, summary, withPlan), ReportPremium) == SumOverBuckets(gs, LegacySigned)
    ensures SumBy(GroupReports(c, gs, summary, withPlan), ReportClaim) == SumOverBuckets(gs, LegacyClaim)
    decreases |gs|
  {
    hide GroupReportOf;
    if gs != [] {
      var init := gs[..|gs| - 1];
      GroupReportsTotals(c, init, summary, withPlan);
      var rs := GroupReports(c, gs, summary, withPlan);
      assert rs[..|rs| - 1] == GroupReports(c, init, summary, withPlan);
      GroupReportFigures(c, gs[|gs| - 1], summary, withPlan);
    }
  }

  /** Each group report's shares are its totals over the summary's. */
  lemma GroupReportShares(c: KpiCalculator, gs: seq<Bucket<LegacyRow>>, summary: LegacyKpis, withPlan: bool)
    ensures var rs := GroupReports(c, gs, summary, withPlan);
            summary.signedPremium != 0.0 ==>
              forall i :: 0 <= i < |rs| ==> PremiumShareOf(rs[i]) == ReportPremium(rs[i]) / summary.signedPremium * 100.0
    ensures var rs := GroupReports(c, gs, summary, withPlan);
            summary.reportedClaim != 0.0 ==>
              forall i :: 0 <= i < |rs| ==> ClaimShareOf(rs[i]) == ReportClaim(rs[i]) / summary.reportedClaim * 100.0
  {
  }

  /** Within one grouping the premium shares, and the claim shares, add up to 100. */
  lemma RankedSharesAddUp(c: KpiCalculator, mapped: seq<LegacyRow>, key: LegacyRow -> string, summary: LegacyKpis, withPlan: bool)
    requires summary.signedPremium == SumBy(mapped, LegacySigned)
    requires summary.reportedClaim == SumBy(mapped, LegacyClaim)
    ensures summary.signedPremium != 0.0 ==> SumBy(RankedReports(c, mapped, key, summary, withPlan), PremiumShareOf) == 100.0
    ensures summary.reportedClaim != 0.0 ==> SumBy(RankedReports(c, mapped, key, summary, withPlan), ClaimShareOf) == 100.0
  {
    var gs := GroupBy(mapped, key);
    var rs := GroupReports(c, gs, summary, withPlan);
    assert RankedReports(c, mapped, key, summary, withPlan) == SortDesc(rs, ReportPremium);
    var ranked := SortDesc(rs, ReportPremium);
    hide *;
    GroupReportsTotals(c, gs, summary, withPlan);
    GroupReportShares(c, gs, summary, withPlan);
    GroupBySums(mapped, key, LegacySigned);
    GroupBySums(mapped, key, LegacyClaim);
    SortDescCorrect(rs, ReportPremium);
    if summary.signedPremium != 0.0 {
      PermutedSharesAddUp(ranked, rs, ReportPremium, PremiumShareOf, summary.signedPremium);
    }
    if summary.reportedClaim != 0.0 {
      PermutedSharesAddUp(ranked, rs, ReportClaim, ClaimShareOf, summary.reportedClaim);
    }
  }

  /** Shares of a total that their parts add up to sum to 100, in any order. */
  lemma PermutedSharesAddUp<T>(ranked: seq<T>, xs: seq<T>, part: T -> real, share: T -> real, total: real)
    requires multiset(ranked) == multiset(xs)
    requires total != 0.0 && SumBy(xs, part) == total
    requires forall i :: 0 <= i < |xs| ==> share(xs[i]) == part(xs[i]) / total * 100.0
    ensures SumBy(ranked, share) == 100.0
  {
    hide *;
    SumByPermutation(ranked, xs, share);
    SharesAddUp(xs, part, share, total);
    assert SumBy(ranked, share) == total / total * 100.0;
    assert total / total == 1.0;
  }

  /** Each group report is named after its group and, for organisations, measured against the looked-up plan. */
  lemma GroupReportsNamed(c: KpiCalculator, gs: seq<Bucket<LegacyRow>>, summary: LegacyKpis, withPlan: bool)
    ensures var rs := GroupReports(c, gs, summary, withPlan);
            forall i :: 0 <= i < |rs| ==>
              rs[i].name in NameSet(gs) && (withPlan ==> rs[i].kpis.plan == PlanFor(rs[i].name))
    ensures var rs := GroupReports(c, gs, summary, withPlan);
            forall i :: 0 <= i < |rs| ==>
              rs[i].name == gs[i].name
              && rs[i].kpis == c.CalculateKpis(gs[i].items, if withPlan then Some(PlanFor(gs[i].name)) else None)
  {
    var rs := GroupReports(c, gs, summary, withPlan);
    forall i | 0 <= i < |rs| ensures rs[i].name in NameSet(gs) {
      assert rs[i].name == gs[i].name;
    }
  }

  /** Every key of the rows names exactly one entry of `rs`, and every entry is named by a key. */
  ghost predicate OneEntryPerKey(rs: seq<GroupReport>, mapped: seq<LegacyRow>, key: LegacyRow -> string) {
    && (forall k :: k in KeySet(mapped, key) ==> exists i :: 0 <= i < |rs| && rs[i].name == k)
    && (forall i :: 0 <= i < |rs| ==> rs[i].name in KeySet(mapped, key))
    && (forall i, j :: 0 <= i < j < |rs| ==> rs[i].name != rs[j].name)
  }

  /** Each entry's KPIs are those of exactly the rows carrying its key, an organisation's against its own plan. */
  ghost predicate EntriesCarryOwnRows(c: KpiCalculator, rs: seq<GroupReport>, mapped: seq<LegacyRow>, key: LegacyRow -> string, withPlan: bool)
    reads c
  {
    forall i :: 0 <= i < |rs| ==>
      rs[i].kpis == c.CalculateKpis(KeyFilter(mapped, key, rs[i].name), if withPlan then Some(PlanFor(rs[i].name)) else None)
  }

  /** The unsorted group reports already list every key once, each with its own rows' KPIs. */
  lemma GroupReportsFaithful(c: KpiCalculator, mapped: seq<LegacyRow>, key: LegacyRow -> string, summary: LegacyKpis, withPlan: bool)
    ensures OneEntryPerKey(GroupReports(c, GroupBy(mapped, key), summary, withPlan), mapped, key)
    ensures EntriesCarryOwnRows(c, GroupReports(c, GroupBy(mapped, key), summary, withPlan), mapped, key, withPlan)
  {
    hide GroupReports, GroupReportOf, GroupBy, PlanFor, YearPlans, KeyFilter, KeySet, KpiCalculator.CalculateKpis;
    var gs := GroupBy(mapped, key);
    var rs := GroupReports(c, gs, summary, withPlan);
    GroupByIsPartition(mapped, key);
    GroupReportsNamed(c, gs, summary, withPlan);
    forall k | k in KeySet(mapped, key) ensures exists i :: 0 <= i < |rs| && rs[i].name == k {
      assert k in NameSet(gs);
      var i :| 0 <= i < |gs| && gs[i].name == k;
      assert rs[i].name == k;
    }
    forall i | 0 <= i < |rs| ensures rs[i].name in KeySet(mapped, key) {
      assert rs[i].name == gs[i].name;
    }
    forall i, j | 0 <= i < j < |rs| ensures rs[i].name != rs[j].name {
      assert rs[i].name == gs[i].name && rs[j].name == gs[j].name;
    }
    assert OneEntryPerKey(rs, mapped, key);
    forall i | 0 <= i < |rs|
      ensures rs[i].kpis == c.CalculateKpis(KeyFilter(mapped, key, rs[i].name), if withPlan then Some(PlanFor(rs[i].name)) else None)
    {
      assert gs[i].items == KeyFilter(mapped, key, gs[i].name);
    }
  }

  /**
   * Each grouping is ranked by signed premium, lists every distinct key
   * exactly once, and gives each key the KPIs of exactly its own rows.
   */
  lemma RankedShape(c: KpiCalculator, mapped: seq<LegacyRow>, key: LegacyRow -> string, summary: LegacyKpis, withPlan: bool)
    ensures SortedDesc(RankedReports(c, mapped, key, summary, withPlan), ReportPremium)
    ensures |RankedReports(c, mapped, key, summary, withPlan)| == |KeySet(mapped, key)|
    ensures OneEntryPerKey(RankedReports(c, mapped, key, summary, withPlan), mapped, key)
    ensures EntriesCarryOwnRows(c, RankedReports(c, mapped, key, summary, withPlan), mapped, key, withPlan)
    ensures withPlan ==> forall r :: r in RankedReports(c, mapped, key, summary, withPlan) ==> r.kpis.plan == PlanFor(r.name)
  {
    hide SortDesc, GroupReports, GroupBy, PlanFor, YearPlans;
    var gs := GroupBy(mapped, key);
    var rs := GroupReports(c, gs, summary, withPlan);
    var ranked := SortDesc(rs, ReportPremium);
    assert RankedReports(c, mapped, key, summary, withPlan) == ranked;
    hide *;
    SortDescCorrect(rs, ReportPremium);
    GroupCountIsDistinctKeys(mapped, key);
    GroupReportsFaithful(c, mapped, key, summary, withPlan);
    GroupReportsNamed(c, gs, summary, withPlan);
    assert |ranked| == |multiset(ranked)| == |multiset(rs)| == |rs|;
    RankedFaithful(ranked, rs, c, mapped, key, withPlan);
    forall r | r in ranked ensures withPlan ==> r.kpis.plan == PlanFor(r.name) {
      assert r in multiset(rs);
      var i :| 0 <= i < |rs| && rs[i] == r;
    }
  }

  /** Reordering the reports keeps one entry per key, each with its own rows. */
  lemma RankedFaithful(ranked: seq<GroupReport>, rs: seq<GroupReport>, c: KpiCalculator, mapped: seq<LegacyRow>,
                       key: LegacyRow -> string, withPlan: bool)
    requires multiset(ranked) == multiset(rs)
    requires OneEntryPerKey(rs, mapped, key) && EntriesCarryOwnRows(c, rs, mapped, key, withPlan)
    ensures OneEntryPerKey(ranked, mapped, key) && EntriesCarryOwnRows(c, ranked, mapped, key, withPlan)
  {
    hide PlanFor, YearPlans, KeyFilter, KpiCalculator.CalculateKpis;
    PermutationKeepsLabelsDistinct(ranked, rs, ReportName);
    forall i | 0 <= i < |ranked|
      ensures ranked[i].name in KeySet(mapped, key)
      ensures ranked[i].kpis == c.CalculateKpis(KeyFilter(mapped, key, ranked[i].name), if withPlan then Some(PlanFor(ranked[i].name)) else None)
    {
      assert ranked[i] in multiset(rs);
      var p :| 0 <= p < |rs| && rs[p] == ranked[i];
    }
    forall k | k in KeySet(mapped, key) ensures exists i :: 0 <= i < |ranked| && ranked[i].name == k {
      var p :| 0 <= p < |rs| && rs[p].name == k;
      assert rs[p] in multiset(ranked);
      var i :| 0 <= i < |ranked| && ranked[i] == rs[p];
    }
  }

  /**
   * The report: the summary is measured against the branch plan; every
   * grouping is ranked by signed premium with one entry per distinct key;
   * organisations carry their looked-up plan; and the shares within each
   * grouping add up to 100 whenever the summary total is not 0.
   */
  lemma ReportProperties(m: Mapper, c: KpiCalculator, csvData: seq<LegacyRow>, week: int)
    ensures var r := ReportFor(m, c, csvData, week);
            var mapped := MappedData(m, csvData);
            && r.summary.plan == 431000000.0
            && SortedDesc(r.dataByOrg, ReportPremium)
            && SortedDesc(r.dataByCategory, ReportPremium)
            && SortedDesc(r.dataByBusinessType, ReportPremium)
            && |r.dataByOrg| == |KeySet(mapped, OrgKey)|
            && |r.dataByCategory| == |KeySet(mapped, CategoryKey)|
            && |r.dataByBusinessType| == |KeySet(mapped, TypeKey)|
            && OneEntryPerKey(r.dataByOrg, mapped, OrgKey)
            && OneEntryPerKey(r.dataByCategory, mapped, CategoryKey)
            && OneEntryPerKey(r.dataByBusinessType, mapped, TypeKey)
            && EntriesCarryOwnRows(c, r.dataByOrg, mapped, OrgKey, true)
            && EntriesCarryOwnRows(c, r.dataByCategory, mapped, CategoryKey, false)
            && EntriesCarryOwnRows(c, r.dataByBusinessType, mapped, TypeKey, false)
            && (forall g :: g in r.dataByOrg ==> g.kpis.plan == PlanFor(g.name))
            && (r.summary.signedPremium != 0.0 ==>
                  && SumBy(r.dataByOrg, PremiumShareOf) == 100.0
                  && SumBy(r.dataByCategory, PremiumShareOf) == 100.0
                  && SumBy(r.dataByBusinessType, PremiumShareOf) == 100.0)
            && (r.summary.reportedClaim != 0.0 ==>
                  && SumBy(r.dataByOrg, ClaimShareOf) == 100.0
                  && SumBy(r.dataByCategory, ClaimShareOf) == 100.0
                  && SumBy(r.dataByBusinessType, ClaimShareOf) == 100.0)
  {
    var mapped := MappedData(m, csvData);
    var summary := c.CalculateKpis(mapped, Some(BranchPlan));
    PlansPositive();
    RankedShape(c, mapped, OrgKey, summary, true);
    RankedShape(c, mapped, CategoryKey, summary, false);
    RankedShape(c, mapped, TypeKey, summary, false);
    RankedSharesAddUp(c, mapped, OrgKey, summary, true);
    RankedSharesAddUp(c, mapped, CategoryKey, summary, false);
    RankedSharesAddUp(c, mapped, TypeKey, summary, false);
  }

  /** Mapping changes labels only: the summary totals are the totals of the uploaded rows. */
  lemma {:induction false} MappedDataKeepsFigures(m: Mapper, csvData: seq<LegacyRow>)
    ensures SumBy(MappedData(m, csvData), LegacySigned) == SumBy(csvData, LegacySigned)
    ensures SumBy(MappedData(m, csvData), LegacyClaim) == SumBy(csvData, LegacyClaim)
    decreases |csvData|
  {
    if csvData != [] {
      var init := csvData[..|csvData| - 1];
      MappedDataKeepsFigures(m, init);
      var mapped := MappedData(m, csvData);
      assert mapped[..|mapped| - 1] == MappedData(m, init);
    }
  }

  /**
   * An alias row and a row with the canonical label it points at land in the
   * same business-type group and the same category group.
   */
  lemma AliasSharesGroups(m: Mapper, j: nat, aliasRow: LegacyRow, canonicalRow: LegacyRow)
    requires m.Valid() && j < |CompatibilityMappings|
    requires aliasRow.businessTypeCategory == CompatibilityMappings[j].csvRawValue
    requires canonicalRow.businessTypeCategory == CompatibilityMappings[j].mapsTo
    ensures var a := MapRow(m.MapBusinessType(aliasRow.businessTypeCategory), aliasRow);
            var b := MapRow(m.MapBusinessType(canonicalRow.businessTypeCategory), canonicalRow);
            TypeKey(a) == TypeKey(b) && CategoryKey(a) == CategoryKey(b)
  {
    hide BusinessTypes, CompatibilityMappings, AliasTargets;
    AliasTargetsExist();
    ResolveAlias(m, j);
    CanonicalLabelsNonEmpty();
  }

  /**
   * The category grouping of a row with a business-type label is decided by
   * the mapping, not by the row's own `category`: the canonical entry's
   * vehicle family, or 未知 for an unknown label.
   */
  lemma CategoryFromMapping(m: Mapper, row: LegacyRow)
    requires m.Valid() && row.businessTypeCategory != ""
    ensures var mapping := m.MapBusinessType(row.businessTypeCategory).value;
            CategoryKey(MapRow(Some(mapping), row)) == if mapping.Known? then mapping.entry.category else "未知"
  {
    var mapping := m.MapBusinessType(row.businessTypeCategory).value;
    if mapping.Known? {
      var e := mapping.entry;
      var k :| k in m.canonicalMap && m.canonicalMap[k] == e;
      hide BusinessTypes, CompatibilityMappings, AliasTargets;
      CanonicalMapEntries(BusinessTypes, k);
      CanonicalLabelsNonEmpty();
    }
  }
}
