# autoweKPI core, modelled in Dafny

autoweKPI turns weekly CSV extracts of a motor-insurance branch into KPI
reports. These are premium, claims, cost ratios, plan achievement and time
progress, broken down by organisation, customer category and business type.
The repository holds two engines. This project models the computational core
of both and proves properties of it.

**The TypeScript engine** (`src/`):

- `math_utils.dfy` (`MathUtils`): safe division, the yuan and 万元 unit
  conversions, `round` as `Math.round(x·10^d)/10^d`, percentages,
  `ensureNumber`, `sum` and `average`.
- `time_progress.dfy` (`TimeProgress`): the days elapsed at the end of a
  reporting week. Week 49 ends on day 340, each week adds 7 days, and the
  result is clamped to [1, 365]. Both engines use this rule.
- `kpi_calculator.dfy` (`KpiCalculator`): `calculateKPIs`, split into
  summation (`TotalsOf`), the ratios (`KpisFromTotals`) and the rounding pass
  (`RoundKpiResult`). It also models `calculateGroupKPIs`.
- `aggregator.ts`, in `aggregator.dfy` (`Aggregator`):
  - grouping by a dimension;
  - the sorted and cut breakdown;
  - the head-office filter;
  - single- and multi-organisation mode;
  - the report's organisation name;
  - the premium-progress chart data.
- `business_mapper.dfy` (`BusinessMapping`): the `BusinessMapper` class, with
  its relabelling table and thresholds as fields. It covers the one-step
  relabelling, anomaly detection against three strict thresholds, and the
  per-category statistics loop.
- `data_loader.dfy` (`DataLoader`): what `parseCSV` does with the CSV parser's
  output. That is error reporting, the empty-file check, the required-column
  check on the first row, cleaning every row (`cleanData`), and
  `getStatistics`.

**The legacy browser engine** (`js/`):

- `legacy_constants.dfy` (`LegacyConstants`): the thresholds, the annual plan
  per organisation, and the business-type table with its canonical entries
  and compatibility aliases. The facts the rest of the model relies on are
  proved directly on the tables: distinct labels, every alias targets a
  canonical entry, positive plans.
- `legacy_logic.dfy` (`LegacyLogic`):
  - `Mapper`: the canonical and compatibility dictionaries and the
    three-step label resolution.
  - `KpiCalculator`: bound to a reporting week.
  - `ReportGenerator`: maps the rows, computes the summary against the
    branch plan, groups the rows three ways, and ranks every grouping by
    signed premium.

**Shared generic pieces:**

- `wrappers.dfy`: `Option`.
- `seqs.dfy`: filtering, keyed sums, prefixes, substring search.
- `grouping.dfy`: grouping into named buckets in first-seen key order. This
  is what lodash `groupBy` and the legacy "object of arrays" both produce.
- `stable_sort.dfy`: a stable insertion sort, descending. Ascending order is
  the descending sort on the negated key. Both lodash `orderBy` and
  `Array.prototype.sort` are stable.

**Modelling choices:**

- Money and counts are exact reals.
- A JavaScript `undefined` field is `Option.None`.
- Classes whose methods update fields are Dafny classes: the TypeScript
  `BusinessMapper`, and the legacy `Mapper`, `KpiCalculator` and
  `ReportGenerator`.
- The stateless TypeScript services are modules of functions.
- The loops the source writes out are methods with loop invariants, each
  proved equal to the function that specifies it:
  - the statistics `forEach` (`TallyBy`);
  - the problem scan (`CollectProblems`);
  - the cleaning passes (`CleanNumeric`, `CleanData`);
  - the legacy dictionary builders (`BuildCanonicalMap`,
    `BuildCompatibilityMap`);
  - the legacy bucket-filling `forEach` (`CollectGroups`).

**Behaviour the model keeps as the code is written:**

- The TypeScript calculator reads `premium_plan_yuan`, `policy_count`,
  `claim_case_count` and `expense_amount_yuan`. The loader's numeric
  cleaning covers `year_plan_premium` and the IBNR and cost columns
  instead, so those four fields pass through uncleaned.
- In the legacy engine, `{...row, ...mapping}` lets the canonical entry's
  `category` (a vehicle family) overwrite the row's customer category.
  `dataByCategory` therefore groups by vehicle family, or 未知 for an
  unknown label, even though its entries are labelled 客户类别. See
  `CategoryFromMapping`.
- A plan key matches anywhere in an organisation name, and the branch key
  comes first. A name containing 四川分公司 therefore gets the whole
  branch's plan (`PlanForExamples`).
- The legacy shares divide by the summary totals. When a total is 0,
  JavaScript yields NaN or Infinity; here the share is `None`.

## Model

| member | source | states |
|---|---|---|
| MathUtils.SafeDivide | src/utils/math.ts:16-32 | a zero denominator gives the default; otherwise result × denominator = numerator |
| MathUtils.YuanToWan | src/utils/math.ts:40-42 | the 万元 amount times 10000 is the yuan amount |
| MathUtils.WanToYuan | src/utils/math.ts:50-52 | the yuan amount is 10000 times the 万元 amount |
| MathUtils.UnitRoundTrip | src/utils/math.ts:40-52 | converting yuan→万元→yuan and 万元→yuan→万元 gives back the input |
| MathUtils.Round | src/utils/math.ts:61-68 | the result is a multiple of 10^-d and the input lies in its half-open window [r − ½·10^-d, r + ½·10^-d), i.e. halves round up as `Math.round` does |
| MathUtils.RoundUnique | src/utils/math.ts:61-68 | any grid point whose window holds the value is exactly `Round`'s result (round is nearest-with-ties-up, uniquely) |
| MathUtils.RoundIdempotent | src/utils/math.ts:61-68 | rounding a rounded value changes nothing |
| MathUtils.RoundError | src/utils/math.ts:61-68 | the rounding error, in units of the last kept decimal, lies in (−½, ½] |
| MathUtils.RoundZero | src/utils/math.ts:61-68 | 0 rounds to 0 at every precision |
| MathUtils.Percentage | src/utils/math.ts:78-80 | 0 for a zero total, otherwise part/total·100 rounded to d places |
| MathUtils.EnsureNumber | src/utils/math.ts:90-98 | `Number(value)` per JavaScript type, the default for NaN, ±Infinity and `undefined`, 0 for `null`, 1/0 for booleans |
| MathUtils.Sum | src/utils/math.ts:106-108 | 0 for an empty list, the element itself for one number, non-negative when every number is, non-positive when every number is |
| MathUtils.SumConcat | src/utils/math.ts:106-108 | the sum of a concatenation is the sum of the sums |
| MathUtils.Average | src/utils/math.ts:116-121 | 0 for an empty list, otherwise average × length = sum |
| TimeProgress.DaysPassed | src/services/kpi-calculator.ts:84-85 | the result is in [1, 365]; it is 340 + 7·(week − 49) when that is in range, 1 below the range and 365 above it |
| TimeProgress.DaysPassedMonotone | src/services/kpi-calculator.ts:84-85 | a later week never has fewer days passed |
| KpiCalculator.EffectivePlan | src/services/kpi-calculator.ts:31-32 | a non-zero manual plan wins; otherwise the row plans' total if positive, else no plan; a plan present is never 0 |
| KpiCalculator.Truthy | src/services/kpi-calculator.ts:140 | `x ? x : undefined`: present exactly when x is present and non-zero, and then unchanged |
| KpiCalculator.PercentZero | src/services/kpi-calculator.ts:47-51 | a zero denominator makes a ratio 0, never NaN |
| KpiCalculator.PercentScales | src/services/kpi-calculator.ts:47-51 | a ratio times its non-zero denominator is 100 × numerator |
| KpiCalculator.MarginalContribution | src/services/kpi-calculator.ts:63-65 | 满期边际贡献额 × 10^6 = matured premium (yuan) × contribution ratio (%) |
| KpiCalculator.Achievement | src/services/kpi-calculator.ts:71-72 | 保费达成率 is present exactly when there is a plan, and then × plan = 100 × signed premium |
| KpiCalculator.PaceAchievement | src/services/kpi-calculator.ts:84-99 | 年计划达成率 is present exactly when 保费达成率 is present and non-zero, and then × days passed = 保费达成率 × 365 |
| KpiCalculator.KpisFromTotals | src/services/kpi-calculator.ts:23-144 | the 万元 amounts × 10000 are the yuan sums; variable cost = loss + expense ratio; combined = variable; contribution = 100 − variable; 已赚保费 = 满期保费; the plan fields are present exactly when there is a plan; every ratio is taken on the yuan sums |
| KpiCalculator.KpiRatios | src/services/kpi-calculator.ts:44-106 | each ratio is 0 on a zero denominator; otherwise loss ratio × matured = 100 × claims, expense ratio × signed = 100 × expense, maturity × signed = 100 × matured, frequency × policies = 100 × cases, average claim × cases = claims |
| KpiCalculator.KpiPlanRates | src/services/kpi-calculator.ts:71-99 | 保费达成率 × plan = 100 × signed premium; 年计划达成率 × days passed = 保费达成率 × 365 |
| KpiCalculator.RoundTruthy | src/services/kpi-calculator.ts:166-185 | `f ? round(f, d) : undefined`: absent exactly when the field is absent or 0, otherwise the rounded value |
| KpiCalculator.RoundKpiResult | src/services/kpi-calculator.ts:160-187 | money (including 满期保费, 边际贡献额 and 年度保费计划 when present), 案均赔款 and 出险率 rounded to 2 places, the other ratios (including 边际贡献率 and both achievements when present) to 1, counts untouched; each optional field becomes absent exactly when it was absent or 0, and otherwise is its value rounded |
| KpiCalculator.CalculateKpis | src/services/kpi-calculator.ts:19-152 | counts are the column sums; 签单保费 is the signed sum in 万元, rounded to 2 places when rounding is on; 保费达成率 needs an effective plan; rounding is applied last and only when enabled |
| KpiCalculator.CalculateGroupKpis | src/services/kpi-calculator.ts:196-206 | one result per group, in order, with its name, KPIs, row count, and `hasYearPlan` exactly when some row has a positive plan |
| KpiCalculator.EmptyGroupKpis | src/services/kpi-calculator.ts:19-152 | an empty group without a manual plan has all sums and cost ratios 0, contribution ratio 100 and no plan fields, rounded or not |
| KpiCalculator.EmptyGroupRaw | src/services/kpi-calculator.ts:23-144 | the same for the unrounded result |
| KpiCalculator.EmptyTotals | src/services/kpi-calculator.ts:23-32 | an empty group sums to zero, has no plan and defaults to week 49 (day 340) |
| KpiCalculator.RoundedZeros | src/services/kpi-calculator.ts:160-187 | rounding keeps an empty group's zeros and its contribution ratio of 100 |
| KpiCalculator.PlanAchievementExample | src/services/kpi-calculator.ts:71-99 | 500000 yuan against a 1000000 plan in week 49 gives 保费达成率 50.0 and 年计划达成率 53.7 |
| KpiCalculator.TotalsPermutation | src/services/kpi-calculator.ts:23-31 | the column sums depend only on the multiset of rows |
| KpiCalculator.KpisPermutationInvariant | src/services/kpi-calculator.ts:19-152 | reordering a group's rows leaves its KPIs unchanged when the first row's week stays the same |
| Grouping.GroupBy | src/services/aggregator.ts:21 | no more groups than rows, at least one group when there is a row, and no group empty |
| Grouping.GroupByIsPartition | src/services/aggregator.ts:21 | grouping yields distinct non-empty buckets, one per distinct key, each holding exactly the rows with that key in input order |
| Grouping.GroupCountIsDistinctKeys | src/services/aggregator.ts:79-80 | there are as many groups as distinct keys |
| StableSort.SortDescCorrect | src/services/aggregator.ts:52 | the descending sort is ordered, a permutation, and keeps equal keys in input order |
| StableSort.SortAscCorrect | src/services/aggregator.ts:140-151 | the ascending sort is ordered, a permutation, and keeps equal keys in input order |
| Aggregator.GroupByDimension | src/services/aggregator.ts:19-28 | a partition of the rows by the dimension's value, its flattening a permutation of the rows, one group per distinct value |
| Aggregator.GroupTotalsAddUp | src/services/aggregator.ts:19-28 | the group premiums add up to the total premium, and the group sizes to the row count |
| Aggregator.GroupResultNames | src/services/aggregator.ts:46-49 | every per-group result names a distinct value of the dimension and has at least one row |
| Aggregator.SortedGroupResults | src/services/aggregator.ts:46-52 | non-increasing by the sort key, a permutation of the group results, stable, one entry per distinct value |
| Aggregator.CalculateGroupedKpis | src/services/aggregator.ts:39-56 | a prefix of the sorted breakdown, of length `limit` (clamped) when the limit is truthy and of full length otherwise; still sorted; every entry a group result |
| Aggregator.CalculateGroupedKpisDefault | src/services/aggregator.ts:42 | the default breakdown is sorted by 签单保费, descending |
| Aggregator.LimitKeepsAll | src/services/aggregator.ts:55 | no limit, a limit of 0, or a limit at least the group count keeps the whole sorted breakdown |
| Aggregator.FilterOutHeadquarters | src/services/aggregator.ts:64-69 | no kept row names 本部 or 总部; every other row is kept as often as it occurs |
| Aggregator.FilterOutCounts | src/services/aggregator.ts:64-69 | the multiplicity of each row after filtering is 0 for head-office rows and unchanged otherwise |
| Aggregator.FilterOutHeadquartersConcat | src/services/aggregator.ts:64-69 | the filter keeps order: it distributes over concatenation |
| Aggregator.FilterOutHeadquartersIdempotent | src/services/aggregator.ts:64-69 | filtering twice is filtering once |
| Aggregator.IsHeadquarters | src/services/aggregator.ts:66-67 | a name is a head office exactly when 本部 or 总部 occurs at some position of it; such a name has at least two characters |
| Aggregator.HeadquartersExample | src/services/aggregator.ts:66-67 | 天府 is kept; 成都本部 and 总部 are dropped |
| Aggregator.IsSingleOrgMode | src/services/aggregator.ts:78-81 | single-organisation mode holds exactly when there are rows and all name the first row's organisation |
| Aggregator.IsMultiOrgMode | src/services/aggregator.ts:90-93 | multi-organisation mode holds exactly when an organisation breakdown has at least 12 groups, and needs at least 12 rows |
| Aggregator.MultiOrgModeIsGroupCount | src/services/aggregator.ts:78-93 | multi-organisation mode is ≥ 12 organisation groups, single mode is exactly 1, and the two never hold together |
| Aggregator.GetOrganizationName | src/services/aggregator.ts:103-123 | never empty; 未知机构 without rows; in single mode the sole organisation (未知机构 if blank); otherwise the first row's second-level organisation, or 分公司 |
| Aggregator.SortByPremiumProgress | src/services/aggregator.ts:134-153 | a stable permutation, ascending by achievement (missing as 0) when some group has a plan, else ascending by signed premium |
| Aggregator.GetTopN | src/services/aggregator.ts:162-164 | the first min(n, length) results |
| Aggregator.PrefixPlans | src/services/aggregator.ts:183-187 | cutting the progress order to a prefix keeps its achievement order when a shown group has a plan |
| Aggregator.ShownNames | src/services/aggregator.ts:175-181 | every shown organisation is a non-head-office organisation of the data |
| Aggregator.ProgressResults | src/services/aggregator.ts:173-187 | the first 12 of the non-head-office organisation results in progress order (all of them when fewer); none a head office, each an organisation of the data; ascending by achievement when a shown result has a plan, ascending by premium when no candidate has one |
| Aggregator.ProgressShowsLowest | src/services/aggregator.ts:183-187 | no organisation left off the chart is behind one shown on it |
| Aggregator.ProgressOf | src/services/aggregator.ts:189-195 | four parallel columns with one entry per result (missing target and rate read as 0); `hasPlans` exactly when some result has a plan; the rates column is ascending whenever the results are in ascending achievement order |
| Aggregator.GetPremiumProgressData | src/services/aggregator.ts:173-196 | the chart columns of `ProgressResults`: at most 12 organisations, none a head office, all from the data; columns of equal length; rates ascending when `hasPlans` |
| BusinessMapping.MergeThresholds | src/services/mapper.ts:34-36 | every supplied threshold overrides and every other is kept |
| BusinessMapping.MergeThresholdsLaws | src/services/mapper.ts:34-36 | an empty patch changes nothing; applying the same patch twice is applying it once |
| BusinessMapping.MappedType | src/services/mapper.ts:53 | a non-empty mapped label replaces the type; otherwise the type is kept |
| BusinessMapping.MapBusinessTypes | src/services/mapper.ts:45-55 | without a table the same rows; otherwise one row per row with only the business type relabelled |
| BusinessMapping.MappingNotTransitive | src/services/mapper.ts:53 | the lookup is one step: a chain of mappings is not followed |
| BusinessMapping.IssuesOf | src/services/mapper.ts:71-87 | there are findings exactly when a threshold is crossed; each finding is present exactly when its strict comparison holds, and findings come in check order |
| BusinessMapping.ProblemList | src/services/mapper.ts:70-97 | one problem per flagged group, in input order, each with its findings |
| BusinessMapping.BoundaryNotFlagged | src/services/mapper.ts:75-87 | values exactly at the default thresholds (93 / 95 / 18) are not flagged |
| BusinessMapping.NoPlanNoTargetIssue | src/services/mapper.ts:80-82 | a group without a plan never gets a below-target finding |
| BusinessMapping.TalliesOf | src/services/mapper.ts:109-124 | one tally per group: its name, row count and summed signed premium |
| BusinessMapping.TallyAppend | src/services/mapper.ts:115-116 | one more row raises a tally's count by one and its premium by the row's |
| BusinessMapping.TallySums | src/services/mapper.ts:109-124 | tally counts and premiums add up to the groups' sizes and premiums |
| BusinessMapping.TalliesAddUp | src/services/mapper.ts:109-124 | the counts add up to the row count, the premiums to the total premium, one tally per distinct value |
| BusinessMapping.TallyBy | src/services/mapper.ts:113-117 | the loop's tallies are those of the first-seen-order grouping; the total is the number of distinct values |
| BusinessMapping.TallyRow | src/services/mapper.ts:114-116 | one step grows the tally of the row's value, or opens one at the end |
| BusinessMapping.FindTally | src/services/mapper.ts:115 | the first tally with the name, or past the end when there is none |
| BusinessMapping.CheckGroup | src/services/mapper.ts:71-87 | the three checks push exactly the findings `IssuesOf` lists |
| BusinessMapping.CollectProblems | src/services/mapper.ts:70-97 | the scan yields exactly the flagged-group list |
| BusinessMapping.CutProblemList | src/services/mapper.ts:100 | the cut list has min(flagged groups, maxProblems) entries, each with a finding |
| BusinessMapping.BusinessMapper.constructor | src/services/mapper.ts:17-18 | a new mapper has an empty table and the default thresholds |
| BusinessMapping.BusinessMapper.SetBusinessTypeMapping | src/services/mapper.ts:25-27 | replaces the table and keeps the thresholds |
| BusinessMapping.BusinessMapper.SetThresholds | src/services/mapper.ts:34-36 | merges the supplied thresholds into the current ones and keeps the table |
| BusinessMapping.BusinessMapper.ApplyBusinessTypeMapping | src/services/mapper.ts:45-55 | relabels with the current table, rows unchanged without one |
| BusinessMapping.BusinessMapper.IdentifyProblemOrganizations | src/services/mapper.ts:67-101 | the flagged groups in input order, cut to maxProblems, each with a finding |
| BusinessMapping.BusinessMapper.GetBusinessTypeStatistics | src/services/mapper.ts:109-124 | tallies by business type whose counts add up to the rows and premiums to the total, one per distinct type |
| BusinessMapping.BusinessMapper.GetCustomerCategoryStatistics | src/services/mapper.ts:132-147 | the same by customer category |
| DataLoader.CleanRow | src/services/data-loader.ts:166-190 | the cleaned copy keeps the row's columns plus the three text columns; numeric columns go through `ensureNumber(v, 0)`, falsy text columns take 未知机构 or 其他, and other cells are unchanged |
| DataLoader.CleanNumeric | src/services/data-loader.ts:170-175 | the same columns; each numeric column present is coerced and every other cell is unchanged |
| DataLoader.FillText | src/services/data-loader.ts:178-188 | a falsy or missing text column takes its filler; nothing else changes |
| DataLoader.CleanData | src/services/data-loader.ts:165-192 | one cleaned row per row, in order |
| DataLoader.CleanedUnique | src/services/data-loader.ts:165-192 | the cleaned copy of a row is determined by the row |
| DataLoader.CleanedShape | src/services/data-loader.ts:165-192 | after cleaning every numeric column present is a number, the three text columns are present and truthy, and other cells are unchanged |
| DataLoader.CleanIdempotent | src/services/data-loader.ts:165-192 | cleaning a cleaned row changes nothing |
| DataLoader.CleanedColumnCount | src/services/data-loader.ts:106-107 | a validated row gains one column exactly when `customer_category` was missing |
| DataLoader.MissingColumns | src/services/data-loader.ts:144-145 | a column is reported exactly when it is required and absent from the first row |
| DataLoader.ValidateData | src/services/data-loader.ts:123-156 | no rows is an `empty_data` error; otherwise no error exactly when nothing is missing, else one `missing_column` error listing the missing columns |
| DataLoader.NoMissingIff | src/services/data-loader.ts:144-153 | validation passes exactly when the first row has every required column |
| DataLoader.DecimalText | src/services/data-loader.ts:73 | a non-empty string of decimal digits, one digit exactly for n < 10 |
| DataLoader.ErrorDetails | src/services/data-loader.ts:73 | one `第{row}行: {message}` line per parser error, in order |
| DataLoader.ParseCsv | src/services/data-loader.ts:66-114 | parser errors win, then an empty file, then missing columns; success exactly when none applies, with the cleaned rows, their count and the first cleaned row's column count |
| DataLoader.GetStatistics | src/services/data-loader.ts:228-248 | all zeros without rows; otherwise the row count, the summed signed premium and the numbers of distinct organisations and business types; each distinct count is at most the row count and positive when there is a row |
| DataLoader.StatisticsMatchGroupings | src/services/data-loader.ts:228-248 | the distinct-organisation count is the number of organisation groups; rows, premium and business types are what the business-type tallies add up to |
| LegacyConstants.CanonicalNamesAgree | js/constants.js:38-182 | every canonical entry's raw label is its full name |
| LegacyConstants.AliasTargetsExist | js/constants.js:38-283 | every alias points at the raw label of a canonical entry and carries that entry's code identifier |
| LegacyConstants.AliasesNotCanonical | js/constants.js:38-283 | no alias label is also a canonical label |
| LegacyConstants.CanonicalRawValuesUnique | js/constants.js:38-182 | the canonical raw labels are pairwise distinct |
| LegacyConstants.AliasRawValuesUnique | js/constants.js:184-283 | the alias labels are pairwise distinct |
| LegacyConstants.CodeIdentifiersUnique | js/constants.js:38-182 | the canonical code identifiers are pairwise distinct |
| LegacyConstants.PlansPositive | js/constants.js:18-35 | every plan is positive, and the first key is 四川分公司 with 431000000 |
| LegacyConstants.CanonicalLabelsNonEmpty | js/constants.js:38-182 | every canonical full name and category is non-empty |
| LegacyConstants.AliasLabelsNonEmpty | js/constants.js:184-283 | every alias label is non-empty |
| LegacyConstants.PlanKeysNonEmpty | js/constants.js:18-35 | no plan key is empty |
| LegacyConstants.ThresholdsMatchDefaults | js/constants.js:10-15 | the legacy problem thresholds (93 / 95 / 18) equal the TypeScript engine's defaults |
| LegacyLogic.BuildCanonicalMap | js/logic.js:10-17 | the loop builds the canonical dictionary, raw label and full name both keying the entry, later entries winning |
| LegacyLogic.BuildCompatibilityMap | js/logic.js:19-25 | the loop builds the alias → canonical-label dictionary, later entries winning |
| LegacyLogic.CanonicalMapEntries | js/logic.js:10-17 | a label is a key exactly when some entry carries it as raw label or full name, and it maps to an entry of the table |
| LegacyLogic.CompatibilityMapKeys | js/logic.js:19-25 | a label is a key exactly when some alias carries it |
| LegacyLogic.CanonicalMapOwn | js/logic.js:10-17 | with distinct raw labels equal to the full names, each entry is what its label looks up |
| LegacyLogic.CompatibilityMapOwn | js/logic.js:19-25 | with distinct alias labels, each alias looks up its target label |
| LegacyLogic.Mapper.constructor | js/logic.js:4-8 | the two dictionaries are the ones built from the table |
| LegacyLogic.Mapper.MapBusinessType | js/logic.js:27-50 | null exactly for an empty label; an unknown label gives the 未知 fallback carrying the label; a resolved entry is an entry of the canonical dictionary |
| LegacyLogic.ResolveCanonical | js/logic.js:38-41 | a canonical raw label or full name resolves to its own entry |
| LegacyLogic.ResolveAlias | js/logic.js:30-36 | an alias resolves to the canonical entry it points at, exactly as the target label does |
| LegacyLogic.ResolveUnknown | js/logic.js:43-49 | a non-empty label that is neither alias nor canonical resolves to the 未知 fallback |
| LegacyLogic.MapRow | js/logic.js:131-135 | no mapping leaves the row as it is; a known type replaces the full name and category and keeps the business-type label; a fallback replaces all three; no other field changes |
| LegacyLogic.MappedData | js/logic.js:131-145 | one mapped row per uploaded row |
| LegacyLogic.KpiCalculator.constructor | js/logic.js:54-61 | days passed is the week's clamped day count, total days 365, time progress their ratio |
| LegacyLogic.KpiCalculator.CalculateKpis | js/logic.js:70-118 | signed, matured, claim, expense, policy and case columns summed; a manual plan, even 0, overrides the plan column; loss and expense ratios in percent, 0 on a zero denominator; 出险率 = 100 × cases / policies and 案均赔款 = claim / cases, 0 on a zero denominator; cost = loss + expense; margin + cost = 100; time-progress achievement present exactly when the plan is positive; annual achievement × plan = 100 × signed, 0 without a positive plan |
| LegacyLogic.ClaimFrequency | js/logic.js:99 | claim cases per hundred policies: frequency × policies = 100 × cases, 0 without policies |
| LegacyLogic.AverageClaim | js/logic.js:97 | the average claim per case: average × cases = claim, 0 without cases |
| LegacyLogic.TimeAchievementScalesAnnual | js/logic.js:89-94 | with a positive plan, time-progress achievement × days passed = annual achievement × 365 |
| LegacyLogic.FirstPlanMatch | js/logic.js:164 | the first plan key, in table order, contained in the name, or none when no key is |
| LegacyLogic.PlanIn | js/logic.js:164-165 | the amount of the first entry whose key the name contains (when that key is non-empty); 0 when no key is contained |
| LegacyLogic.PlanFor | js/logic.js:164-165 | an organisation's plan is ≥ 0, positive exactly when its name contains a plan key, and the amount of the first such key |
| LegacyLogic.PlanForExamples | js/logic.js:163-165 | 天府 gets 197300000; 四川分公司本部 gets the branch's 431000000, not 本部's plan |
| LegacyLogic.Share | js/logic.js:173-174 | undefined exactly for a zero total; otherwise share × total = 100 × part |
| LegacyLogic.GroupReports | js/logic.js:159-176 | one report per group |
| LegacyLogic.CollectGroups | js/logic.js:152-157 | the push loop builds exactly the first-seen-order grouping |
| LegacyLogic.ReportGenerator.constructor | js/logic.js:122-125 | a fresh mapper with its dictionaries built and a fresh calculator for week 49 |
| LegacyLogic.ReportGenerator.ProcessData | js/logic.js:127-236 | the calculator is replaced by a fresh one for the week, the mapper is kept, and the report is the one `ReportFor` specifies |
| LegacyLogic.SharesAddUp | js/logic.js:173-174 | shares of a common non-zero total add up to the parts' sum over that total, × 100 |
| LegacyLogic.GroupReportsTotals | js/logic.js:159-176 | the group reports' premiums and claims add up to the group totals |
| LegacyLogic.GroupReportShares | js/logic.js:173-174 | each report's share is its total over the summary's, × 100, when the summary total is not 0 |
| LegacyLogic.RankedSharesAddUp | js/logic.js:159-179 | within one ranked grouping the premium shares, and the claim shares, add up to 100 when the summary total is not 0 |
| LegacyLogic.PermutedSharesAddUp | js/logic.js:173-179 | shares of a total their parts add up to sum to 100, in any order |
| LegacyLogic.GroupReportsNamed | js/logic.js:159-170 | the i-th report is named after the i-th group and carries the KPIs of that group's rows, against the group's looked-up plan for organisations and no plan otherwise |
| LegacyLogic.GroupReportsFaithful | js/logic.js:152-170 | before ranking, every distinct key of the rows has exactly one report, every report is named by a key, and each report carries the KPIs of exactly the rows with its key |
| LegacyLogic.RankedShape | js/logic.js:152-179 | a ranked grouping is sorted by signed premium, descending; every distinct key has exactly one entry and every entry is named by a key; each entry carries the KPIs of exactly the rows with its key, against its looked-up plan for organisations |
| LegacyLogic.RankedFaithful | js/logic.js:179 | sorting the reports (a permutation) keeps one entry per key and each entry's KPIs |
| LegacyLogic.ReportFor | js/logic.js:127-236 | the fixed 四川 header, week, thresholds, single-mode flag and date range; the summary is the KPIs of all mapped rows against the 431000000 branch plan, so its premium and claim are the input's totals and its annual achievement is 100 × premium / 431000000 |
| LegacyLogic.ReportProperties | js/logic.js:127-236 | the summary uses the 431000000 branch plan; all three groupings are ranked by premium, list every distinct key of the mapped rows exactly once, and give each key the KPIs of exactly its rows (organisations against their own plan, categories and business types without one); shares add up to 100 when the summary total is not 0 |
| LegacyLogic.MappedDataKeepsFigures | js/logic.js:131-148 | mapping changes labels only: the premium and claim totals of the mapped rows are those of the uploaded rows |
| LegacyLogic.AliasSharesGroups | js/logic.js:131-135 | a row with an alias label and a row with its target label fall in the same business-type and category groups |
| LegacyLogic.CategoryFromMapping | js/logic.js:182-187 | a labelled row's category group is the mapped entry's category, or 未知 for an unknown label, never the row's own category |

## Left out

- File reading (`FileReader`, `loadFromFile`), the CSV parser itself (PapaParse: header and value trimming, `dynamicTyping`, empty-line skipping) and DuckDB loading are not modelled. They are I/O or foreign code. The parser's outcome is an input of `DataLoader.ParseCsv`.
- The Vue components, router, stores, charts and `src/utils/date.ts` are not part of this model. They are presentation code outside the engine's computations.
- Floating point is not modelled: money and ratios are exact reals. NaN and Infinity appear only as `JsValue.NonFinite`, and as `None` for a legacy share over a zero total. `safeDivide`'s check of a non-finite quotient cannot fire on reals.
- MathUtils.EnsureNumber: text-to-number conversion (`Number(" 12 ")`, hex, exponents) is not modelled. A string carries the reading `Number` gives it.
- The legacy `parseFloat(x) || 0` coercion of the row figures is not modelled. Legacy rows hold numbers already.
- JavaScript object key order is taken to be insertion order. Integer-like keys, which JavaScript lists first, and inherited prototype keys are not modelled.
- `toLowerCase` in the head-office filter is left out. It cannot change 本部 or 总部, so matching on the original name decides the same.
- The problem messages' `toFixed(1)` text is not modelled. An issue carries the kind and the value it reports.
- Aggregator.SortedGroupResults: sorting is restricted to the KPI fields that are always numbers. Sorting by an optional field, where lodash puts `undefined` last, is not modelled.
- The `!firstRow` branch of `validateData` is left out: a parsed row is never falsy.
- The `currentDate` and `mappingData` fields of the legacy classes are left out. Nothing reads `currentDate`, and `mappingData` is the constant table.
- Mapped fields the report never reads (`ui_short_label`, `code_identifier`, `csv_field_name`, `is_canonical`) are kept in the table but not copied into rows.
- `Array.prototype.sort` and lodash `orderBy` are modelled on sequences: the model returns a new sorted value. The legacy `sort` works in place on a fresh local array that nothing else aliases, so nothing observable is lost.
- LegacyLogic.MappedData: its contract states only the length. What each row becomes is stated by `MapRow`, `MappedDataKeepsFigures`, `AliasSharesGroups` and `CategoryFromMapping`.
- LegacyLogic.GroupReports: its contract states only the count. The names, plans, totals and shares are stated by `GroupReportsNamed`, `GroupReportsTotals` and `GroupReportShares`.
- Week numbers are integers. A fractional `week_number` string is not modelled.
