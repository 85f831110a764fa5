/**
 * The static tables of the legacy engine (js/constants.js): the thresholds,
 * the annual premium plans per organisation, and the business-type table
 * with its canonical entries and the compatibility aliases that point at
 * them.
 */
module LegacyConstants {
  import BusinessMapping

  /** The quadrant baselines of the legacy report (`四象限基准线`). */
  datatype QuadrantBaselines = QuadrantBaselines(
    premiumAchievement: real,
    variableCostRatio: real,
    maturedLossRatio: real,
    expenseRatio: real,
    claimFrequency: real,
    averageClaim: real)

  /** The problem-organisation thresholds of the legacy report (`问题机构识别阈值`). */
  datatype ProblemThresholds = ProblemThresholds(
    premiumTarget: real,
    variableCostRatio: real,
    maturedLossRatio: real,
    expenseRatio: real)

  datatype Thresholds = Thresholds(quadrant: QuadrantBaselines, problem: ProblemThresholds)

  /** `THRESHOLDS`. */
  const LegacyThresholds: Thresholds := Thresholds(
    QuadrantBaselines(100.0, 88.0, 70.0, 14.0, 11.5, 4800.0),
    ProblemThresholds(95.0, 93.0, 72.0, 18.0))

  /** One `年度保费计划` entry; the table's key order is its declaration order. */
  datatype PlanEntry = PlanEntry(key: string, amount: real)

  /** `YEAR_PLANS["年度保费计划"]`, in key order (yuan). */
  const YearPlans: seq<PlanEntry> := [
    PlanEntry("四川分公司", 431000000.0),
    PlanEntry("天府", 197300000.0),
    PlanEntry("武侯", 13500000.0),
    PlanEntry("高新", 55700000.0),
    PlanEntry("青羊", 43400000.0),
    PlanEntry("新都", 35000000.0),
    PlanEntry("德阳", 12800000.0),
    PlanEntry("宜宾", 22700000.0),
    PlanEntry("泸州", 10750000.0),
    PlanEntry("乐山", 11900000.0),
    PlanEntry("自贡", 9450000.0),
    PlanEntry("资阳", 12000000.0),
    PlanEntry("达州", 6500000.0),
    PlanEntry("本部", 1000000.0)]

  /** The branch-wide key, the plan the legacy summary uses. */
  const BranchPlanKey: string := "四川分公司"

  /** A canonical business type (`business_types`). */
  datatype BusinessType = BusinessType(
    uiFullName: string,
    uiShortLabel: string,
    codeIdentifier: string,
    csvFieldName: string,
    csvRawValue: string,
    category: string,
    isCanonical: bool)

  /** A compatibility alias (`compatibility_mappings`): an old label and the canonical label it stands for. */
  datatype CompatibilityMapping = CompatibilityMapping(
    uiFullName: string,
    uiShortLabel: string,
    codeIdentifier: string,
    csvFieldName: string,
    csvRawValue: string,
    mapsTo: string,
    note: string)

  const Field: string := "business_type_category"

  /** `BUSINESS_TYPE_MAPPING.business_types`. */
  const BusinessTypes: seq<BusinessType> := [
    BusinessType("非营业客车新车", "非营客-新", "non_pc_new", Field, "非营业客车新车", "非营业客车", true),
    BusinessType("非营业客车旧车非过户", "非营客-旧", "non_pc_used", Field, "非营业客车旧车非过户", "非营业客车", true),
    BusinessType("非营业客车旧车过户", "非营客-过户", "non_pc_transfer", Field, "非营业客车旧车过户", "非营业客车", true),
    BusinessType("1吨以下非营业货车", "非营货-<1t", "non_truck_lt1", Field, "1吨以下非营业货车", "非营业货车", true),
    BusinessType("1–2吨非营业货车", "非营货-1–2t", "non_truck_1_2", Field, "1–2吨非营业货车", "非营业货车", true),
    BusinessType("2吨以下营业货车", "营货-<2t", "biz_truck_lt2", Field, "2吨以下营业货车", "营业货车", true),
    BusinessType("2–9吨营业货车", "营货-2–9t", "biz_truck_2_9", Field, "2–9吨营业货车", "营业货车", true),
    BusinessType("9–10吨营业货车", "营货-9–10t", "biz_truck_9_10", Field, "9–10吨营业货车", "营业货车", true),
    BusinessType("10吨以上营业货车（普货）", "营货-≥10t普", "biz_truck_10_plus", Field, "10吨以上营业货车（普货）", "营业货车", true),
    BusinessType("10吨以上营业货车（牵引）", "营货-≥10t牵", "biz_truck_10_plus_trac", Field, "10吨以上营业货车（牵引）", "营业货车", true),
    BusinessType("自卸车", "营货-≥10t卸", "biz_truck_10_plus_dump", Field, "自卸车", "营业货车", true),
    BusinessType("特种车", "营货-≥10t特", "biz_truck_10_plus_special", Field, "特种车", "营业货车", true),
    BusinessType("其他营业货车", "营货-其他", "biz_truck_other", Field, "其他营业货车", "营业货车", true),
    BusinessType("摩托车", "摩托", "motorcycle", Field, "摩托车", "其他", true),
    BusinessType("出租车", "营客-出租", "biz_pc_taxi", Field, "出租车", "营业客车", true),
    BusinessType("网约车", "营客-网约", "biz_pc_ridehailing", Field, "网约车", "营业客车", true)]

  /** `BUSINESS_TYPE_MAPPING.compatibility_mappings`. */
  const CompatibilityMappings: seq<CompatibilityMapping> := [
    CompatibilityMapping("非营业客车旧车过户车", "非营客-过户", "non_pc_transfer", Field, "非营业客车旧车过户车", "非营业客车旧车过户", "兼容旧文案"),
    CompatibilityMapping("非营业货车新车", "非营货-1–2t", "non_truck_1_2", Field, "非营业货车新车", "1–2吨非营业货车", "兼容旧分类，暂映射到1–2t档"),
    CompatibilityMapping("非营业货车旧车", "非营货-1–2t", "non_truck_1_2", Field, "非营业货车旧车", "1–2吨非营业货车", "兼容旧分类，暂映射到1–2t档"),
    CompatibilityMapping("2-9吨营业货车", "营货-2–9t", "biz_truck_2_9", Field, "2-9吨营业货车", "2–9吨营业货车", "兼容不同连接符格式"),
    CompatibilityMapping("9-10吨营业货车", "营货-9–10t", "biz_truck_9_10", Field, "9-10吨营业货车", "9–10吨营业货车", "兼容不同连接符格式"),
    CompatibilityMapping("10吨以上-普货", "营货-≥10t普", "biz_truck_10_plus", Field, "10吨以上-普货", "10吨以上营业货车（普货）", "兼容简化格式"),
    CompatibilityMapping("10吨以上普货", "营货-≥10t普", "biz_truck_10_plus", Field, "10吨以上普货", "10吨以上营业货车（普货）", "兼容简化格式"),
    CompatibilityMapping("10吨以上-牵引", "营货-≥10t牵", "biz_truck_10_plus_trac", Field, "10吨以上-牵引", "10吨以上营业货车（牵引）", "兼容简化格式"),
    CompatibilityMapping("10吨以上牵引", "营货-≥10t牵", "biz_truck_10_plus_trac", Field, "10吨以上牵引", "10吨以上营业货车（牵引）", "兼容简化格式"),
    CompatibilityMapping("自卸", "营货-≥10t卸", "biz_truck_10_plus_dump", Field, "自卸", "自卸车", "兼容简化格式"),
    CompatibilityMapping("其他", "营货-其他", "biz_truck_other", Field, "其他", "其他营业货车", "默认映射到其他营业货车")]

  /** For each alias, the position of the canonical entry it points at. */
  const AliasTargets: seq<nat> := [2, 4, 4, 6, 7, 8, 8, 9, 9, 10, 12]

  /** Every canonical entry is listed under its own full name. */
  lemma CanonicalNamesAgree()
    ensures forall i :: 0 <= i < |BusinessTypes| ==> BusinessTypes[i].csvRawValue == BusinessTypes[i].uiFullName
  {
  }

  /**
   * Every alias points at the raw value of a canonical entry, the one at
   * `AliasTargets`, and carries that entry's code identifier.
   */
  lemma AliasTargetsExist()
    ensures |AliasTargets| == |CompatibilityMappings|
    ensures forall j :: 0 <= j < |CompatibilityMappings| ==>
              && AliasTargets[j] < |BusinessTypes|
              && BusinessTypes[AliasTargets[j]].csvRawValue == CompatibilityMappings[j].mapsTo
              && BusinessTypes[AliasTargets[j]].codeIdentifier == CompatibilityMappings[j].codeIdentifier
  {
  }

  /** No alias label is also a canonical label. */
  lemma AliasesNotCanonical()
    ensures forall i, j :: 0 <= i < |BusinessTypes| && 0 <= j < |CompatibilityMappings| ==>
              CompatibilityMappings[j].csvRawValue != BusinessTypes[i].csvRawValue
  {
  }

  /** The canonical raw labels are pairwise distinct. */
  lemma CanonicalRawValuesUnique()
    ensures forall i, k :: 0 <= i < k < |BusinessTypes| ==> BusinessTypes[i].csvRawValue != BusinessTypes[k].csvRawValue
  {
  }

  /** The alias raw labels are pairwise distinct. */
  lemma AliasRawValuesUnique()
    ensures forall j, k :: 0 <= j < k < |CompatibilityMappings| ==>
              CompatibilityMappings[j].csvRawValue != CompatibilityMappings[k].csvRawValue
  {
  }

  /** The canonical code identifiers are pairwise distinct. */
  lemma CodeIdentifiersUnique()
    ensures forall i, k :: 0 <= i < k < |BusinessTypes| ==> BusinessTypes[i].codeIdentifier != BusinessTypes[k].codeIdentifier
  {
  }

  /** Every plan is positive, and the branch-wide plan is the first key. */
  lemma PlansPositive()
    ensures forall i :: 0 <= i < |YearPlans| ==> YearPlans[i].amount > 0.0
    ensures YearPlans[0].key == BranchPlanKey && YearPlans[0].amount == 431000000.0
  {
  }

  /** Every canonical entry has a non-empty full name and category. */
  lemma CanonicalLabelsNonEmpty()
    ensures forall i :: 0 <= i < |BusinessTypes| ==> BusinessTypes[i].uiFullName != "" && BusinessTypes[i].category != ""
  {
  }

  /** Every alias label is non-empty. */
  lemma AliasLabelsNonEmpty()
    ensures forall j :: 0 <= j < |CompatibilityMappings| ==> CompatibilityMappings[j].csvRawValue != ""
  {
  }

  /** No plan key is empty, so every key found in a name selects its plan. */
  lemma PlanKeysNonEmpty()
    ensures forall i :: 0 <= i < |YearPlans| ==> YearPlans[i].key != ""
  {
  }

  /** The legacy problem thresholds are the TypeScript engine's defaults. */
  lemma ThresholdsMatchDefaults()
    ensures LegacyThresholds.problem.variableCostRatio == BusinessMapping.DefaultThresholds.costRate
    ensures LegacyThresholds.problem.premiumTarget == BusinessMapping.DefaultThresholds.targetRate
    ensures LegacyThresholds.problem.expenseRatio == BusinessMapping.DefaultThresholds.expenseRate
  {
  }
}
