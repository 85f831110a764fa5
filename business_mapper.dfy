/**
 * The business mapper and anomaly detector of the TypeScript engine
 * (src/services/mapper.ts): a one-step relabelling of business types,
 * flagging of groups against three thresholds, and per-category tallies.
 */
module BusinessMapping {
  import opened Wrappers
  import opened Seqs
  import opened Grouping
  import opened KpiCalculator

  /** `ThresholdConfig`: cost-ratio ceiling, achievement floor, expense-ratio ceiling, list length. */
  datatype ThresholdConfig = ThresholdConfig(costRate: real, targetRate: real, expenseRate: real, maxProblems: int)

  /** `DEFAULT_THRESHOLDS`: 93 / 95 / 18, at most 5 problems. */
  const DefaultThresholds: ThresholdConfig := ThresholdConfig(93.0, 95.0, 18.0, 5)

  /** `Partial<ThresholdConfig>`: None for a field the caller leaves out. */
  datatype ThresholdPatch = ThresholdPatch(
    costRate: Option<real>, targetRate: Option<real>, expenseRate: Option<real>, maxProblems: Option<int>)

  /** `{ ...current, ...patch }`: every supplied field overrides, every other is kept. */
  function MergeThresholds(current: ThresholdConfig, patch: ThresholdPatch): (t: ThresholdConfig)
    ensures t.costRate == if patch.costRate.Some? then patch.costRate.value else current.costRate
    ensures t.targetRate == if patch.targetRate.Some? then patch.targetRate.value else current.targetRate
    ensures t.expenseRate == if patch.expenseRate.Some? then patch.expenseRate.value else current.expenseRate
    ensures t.maxProblems == if patch.maxProblems.Some? then patch.maxProblems.value else current.maxProblems
  {
    ThresholdConfig(
      patch.costRate.GetOr(current.costRate),
      patch.targetRate.GetOr(current.targetRate),
      patch.expenseRate.GetOr(current.expenseRate),
      patch.maxProblems.GetOr(current.maxProblems))
  }

  /** An empty patch changes nothing, and applying the same patch twice is applying it once. */
  lemma MergeThresholdsLaws(current: ThresholdConfig, patch: ThresholdPatch)
    ensures MergeThresholds(current, ThresholdPatch(None, None, None, None)) == current
    ensures MergeThresholds(MergeThresholds(current, patch), patch) == MergeThresholds(current, patch)
  {
  }

  /** `businessTypeMap[t] || t`: the mapped label when there is a non-empty one, else `t` itself. */
  function MappedType(mapping: map<string, string>, t: string): (r: string)
    ensures t in mapping && mapping[t] != "" ==> r == mapping[t]
    ensures !(t in mapping && mapping[t] != "") ==> r == t
  {
    if t in mapping && mapping[t] != "" then mapping[t] else t
  }

  /**
   * The relabelled rows: without a mapping the very same rows; otherwise one
   * row per input row, only its business type replaced.
   */
  function MapBusinessTypes(mapping: map<string, string>, data: seq<Row>): (r: seq<Row>)
    ensures |mapping| == 0 ==> r == data
    ensures |r| == |data|
    ensures forall i :: 0 <= i < |data| ==>
              r[i] == data[i].(businessTypeCategory := MappedType(mapping, data[i].businessTypeCategory))
  {
    if |mapping| == 0 then
      assert forall i :: 0 <= i < |data| ==> MappedType(mapping, data[i].businessTypeCategory) == data[i].businessTypeCategory;
      data
    else
      seq(|data|, i requires 0 <= i < |data| =>
        data[i].(businessTypeCategory := MappedType(mapping, data[i].businessTypeCategory)))
  }

  /** The lookup is a single step: a label mapped to a label that is itself mapped is not followed further. */
  lemma MappingNotTransitive()
    ensures var mapping := map["货车" := "营业货车", "营业货车" := "营业用货车"];
      MappedType(mapping, "货车") == "营业货车"
  {
  }

  /** One finding about a group, with the value that triggered it (the source formats it as a message). */
  datatype Issue = HighCombinedCost(value: real) | BelowTarget(value: real) | HighExpense(value: real)

  /** A flagged group: its name, its findings and its KPIs. */
  datatype ProblemOrganization = ProblemOrganization(name: string, issues: seq<Issue>, kpi: KpiResult)

  /** The position of a finding in the fixed check order: cost, target, expense. */
  function Rank(issue: Issue): nat {
    match issue
    case HighCombinedCost(_) => 0
    case BelowTarget(_) => 1
    case HighExpense(_) => 2
  }

  predicate CostTooHigh(kpi: KpiResult, t: ThresholdConfig) {
    kpi.combinedCostRatio > t.costRate
  }

  predicate TargetMissed(kpi: KpiResult, t: ThresholdConfig) {
    kpi.premiumAchievement.Some? && kpi.premiumAchievement.value < t.targetRate
  }

  predicate ExpenseTooHigh(kpi: KpiResult, t: ThresholdConfig) {
    kpi.expenseRatio > t.expenseRate
  }

  /** A group is a problem when at least one of the three strict comparisons fails. */
  predicate Flagged(kpi: KpiResult, t: ThresholdConfig) {
    CostTooHigh(kpi, t) || TargetMissed(kpi, t) || ExpenseTooHigh(kpi, t)
  }

  /** The findings for one group, in check order. */
  function IssuesOf(kpi: KpiResult, t: ThresholdConfig): (issues: seq<Issue>)
    ensures |issues| > 0 <==> Flagged(kpi, t)
    ensures HighCombinedCost(kpi.combinedCostRatio) in issues <==> CostTooHigh(kpi, t)
    ensures (exists v :: BelowTarget(v) in issues) <==> TargetMissed(kpi, t)
    ensures TargetMissed(kpi, t) ==> BelowTarget(kpi.premiumAchievement.value) in issues
    ensures HighExpense(kpi.expenseRatio) in issues <==> ExpenseTooHigh(kpi, t)
    ensures forall i, j :: 0 <= i < j < |issues| ==> Rank(issues[i]) < Rank(issues[j])
  {
    var cost := if CostTooHigh(kpi, t) then [HighCombinedCost(kpi.combinedCostRatio)] else [];
    var target := if TargetMissed(kpi, t) then [BelowTarget(kpi.premiumAchievement.value)] else [];
    var expense := if ExpenseTooHigh(kpi, t) then [HighExpense(kpi.expenseRatio)] else [];
    cost + target + expense
  }

  /** The group, flagged. */
  function ProblemOf(result: GroupKpiResult, t: ThresholdConfig): ProblemOrganization {
    ProblemOrganization(result.name, IssuesOf(result.kpi, t), result.kpi)
  }

  function FlaggedResult(t: ThresholdConfig): GroupKpiResult -> bool {
    (g: GroupKpiResult) => Flagged(g.kpi, t)
  }

  /** Every flagged group, in input order, before the list is cut. */
  function ProblemList(results: seq<GroupKpiResult>, t: ThresholdConfig): (problems: seq<ProblemOrganization>)
    ensures |problems| == |Filter(results, FlaggedResult(t))|
    ensures forall i :: 0 <= i < |problems| ==>
              && |problems[i].issues| > 0
              && problems[i] == ProblemOf(Filter(results, FlaggedResult(t))[i], t)
    decreases |results|
  {
    if results == [] then []
    else
      var init, last := results[..|results| - 1], results[|results| - 1];
      assert results == init + [last];
      FilterConcat(init, [last], FlaggedResult(t));
      assert [last][..0] == [];
      ProblemList(init, t) + (if Flagged(last.kpi, t) then [ProblemOf(last, t)] else [])
  }

  /** A combined cost ratio exactly at the ceiling is not a problem; the comparisons are strict. */
  lemma BoundaryNotFlagged(kpi: KpiResult)
    requires kpi.combinedCostRatio == 93.0 && kpi.expenseRatio == 18.0 && kpi.premiumAchievement == Some(95.0)
    ensures !Flagged(kpi, DefaultThresholds)
    ensures IssuesOf(kpi, DefaultThresholds) == []
  {
  }

  /** A group without a plan is never flagged for its achievement. */
  lemma NoPlanNoTargetIssue(kpi: KpiResult, t: ThresholdConfig)
    requires kpi.premiumAchievement.None?
    ensures forall v :: BelowTarget(v) !in IssuesOf(kpi, t)
  {
  }

  /** The per-category tally of a statistics call: the value, its row count and its summed premium. */
  datatype Tally = Tally(name: string, count: nat, premium: real)

  /** The tally of one group: its name, its size and its summed signed premium. */
  function TallyOf(group: Bucket<Row>): Tally {
    Tally(group.name, |group.items|, SumBy(group.items, SignedOf))
  }

  /** The tallies of a grouping, group by group. */
  function TalliesOf(groups: seq<Bucket<Row>>): (tallies: seq<Tally>)
    ensures |tallies| == |groups|
    ensures forall i :: 0 <= i < |groups| ==> tallies[i] == TallyOf(groups[i])
  {
    seq(|groups|, i requires 0 <= i < |groups| => TallyOf(groups[i]))
  }

  /** One more row in a group raises its count by one and its premium by the row's. */
  lemma TallyAppend(group: Bucket<Row>, row: Row)
    ensures TallyOf(Bucket(group.name, group.items + [row]))
         == Tally(group.name, TallyOf(group).count + 1, TallyOf(group).premium + row.signedPremiumYuan)
  {
    SumByConcat(group.items, [row], SignedOf);
    assert SumBy([row], SignedOf) == row.signedPremiumYuan by { assert [row][..0] == []; }
  }

  /** The sum of the counts of some tallies. */
  function CountSum(tallies: seq<Tally>): nat
    decreases |tallies|
  {
    if tallies == [] then 0 else CountSum(tallies[..|tallies| - 1]) + tallies[|tallies| - 1].count
  }

  /** The sum of the premiums of some tallies. */
  function PremiumSum(tallies: seq<Tally>): real
    decreases |tallies|
  {
    if tallies == [] then 0.0 else PremiumSum(tallies[..|tallies| - 1]) + tallies[|tallies| - 1].premium
  }

  lemma {:induction false} TallySums(groups: seq<Bucket<Row>>)
    ensures CountSum(TalliesOf(groups)) == CountOverBuckets(groups)
    ensures PremiumSum(TalliesOf(groups)) == SumOverBuckets(groups, SignedOf)
    decreases |groups|
  {
    if groups != [] {
      var init := groups[..|groups| - 1];
      assert TalliesOf(groups)[..|groups| - 1] == TalliesOf(init);
      TallySums(init);
    }
  }

  /**
   * The statistics of one category field: counts add up to the number of
   * rows, premiums to the total signed premium, and there is one tally per
   * distinct value.
   */
  lemma TalliesAddUp(data: seq<Row>, key: Row -> string)
    ensures CountSum(TalliesOf(GroupBy(data, key))) == |data|
    ensures PremiumSum(TalliesOf(GroupBy(data, key))) == SumBy(data, SignedOf)
    ensures |TalliesOf(GroupBy(data, key))| == |KeySet(data, key)|
  {
    TallySums(GroupBy(data, key));
    GroupBySums(data, key, SignedOf);
    GroupCountIsDistinctKeys(data, key);
  }

  /** A group of one row tallies one row and its premium. */
  lemma TallySingle(name: string, row: Row)
    ensures TallyOf(Bucket(name, [row])) == Tally(name, 1, row.signedPremiumYuan)
  {
    assert [row][..0] == [];
    assert SumBy([row], SignedOf) == row.signedPremiumYuan;
  }

  /** Replacing one group replaces its tally only. */
  lemma TalliesUpdate(groups: seq<Bucket<Row>>, j: nat, group: Bucket<Row>)
    requires j < |groups|
    ensures TalliesOf(groups[j := group]) == TalliesOf(groups)[j := TallyOf(group)]
  {
  }

  /** A new group at the end adds its tally at the end. */
  lemma TalliesSnoc(groups: seq<Bucket<Row>>, group: Bucket<Row>)
    ensures TalliesOf(groups + [group]) == TalliesOf(groups) + [TallyOf(group)]
  {
  }

  /** The flagged list grows by the new group exactly when that group is flagged. */
  lemma ProblemListSnoc(results: seq<GroupKpiResult>, x: GroupKpiResult, t: ThresholdConfig)
    ensures ProblemList(results + [x], t) == ProblemList(results, t) + (if Flagged(x.kpi, t) then [ProblemOf(x, t)] else [])
  {
    assert (results + [x])[..|results|] == results;
  }

  /** The distinct values counted (`typeCount.size`). */
  datatype Statistics = Statistics(tallies: seq<Tally>, total: nat)

  /**
   * The loop both statistics methods run: one pass over the rows, raising
   * the count and premium of the row's value, or opening a tally for a new
   * value at the end.
   */
  method TallyBy(data: seq<Row>, key: Row -> string) returns (stats: Statistics)
    ensures stats.tallies == TalliesOf(GroupBy(data, key))
    ensures stats.total == |KeySet(data, key)|
  {
    hide Place, GroupBy;
    var tallies: seq<Tally> := [];
    var i := 0;
    while i < |data|
      invariant 0 <= i <= |data|
      invariant tallies == TalliesOf(GroupBy(data[..i], key))
    {
      GroupBySnoc(data[..i], data[i], key);
      assert data[..i + 1] == data[..i] + [data[i]];
      tallies := TallyRow(tallies, GroupBy(data[..i], key), data[i], key);
      i := i + 1;
    }
    assert data[..i] == data;
    TalliesAddUp(data, key);
    stats := Statistics(tallies, |tallies|);
  }

  /** One step of the loop: the tally of the row's value grows, or a new one is opened at the end. */
  method TallyRow(tallies: seq<Tally>, ghost groups: seq<Bucket<Row>>, row: Row, key: Row -> string)
    returns (next: seq<Tally>)
    requires tallies == TalliesOf(groups)
    ensures next == TalliesOf(Place(groups, row, key))
  {
    var k := key(row);
    var j := FindTally(tallies, k);
    if j < |tallies| {
      var grown := Bucket(groups[j].name, groups[j].items + [row]);
      PlaceFound(groups, row, key, j);
      TallyAppend(groups[j], row);
      TalliesUpdate(groups, j, grown);
      next := tallies[j := Tally(k, tallies[j].count + 1, tallies[j].premium + row.signedPremiumYuan)];
    } else {
      PlaceNew(groups, row, key);
      TallySingle(k, row);
      TalliesSnoc(groups, Bucket(k, [row]));
      next := tallies + [Tally(k, 1, row.signedPremiumYuan)];
    }
  }

  /** The position of the first tally named `k`, or the number of tallies when there is none. */
  method FindTally(tallies: seq<Tally>, k: string) returns (j: nat)
    ensures j <= |tallies|
    ensures j < |tallies| ==> tallies[j].name == k
    ensures forall m :: 0 <= m < j ==> tallies[m].name != k
  {
    j := 0;
    while j < |tallies| && tallies[j].name != k
      invariant 0 <= j <= |tallies|
      invariant forall m :: 0 <= m < j ==> tallies[m].name != k
    {
      j := j + 1;
    }
  }

  /** The three checks of one group, pushing a finding for each that fails. */
  method CheckGroup(kpi: KpiResult, t: ThresholdConfig) returns (issues: seq<Issue>)
    ensures issues == IssuesOf(kpi, t)
  {
    issues := [];
    if kpi.combinedCostRatio > t.costRate {
      issues := issues + [HighCombinedCost(kpi.combinedCostRatio)];
    }
    if kpi.premiumAchievement.Some? && kpi.premiumAchievement.value < t.targetRate {
      issues := issues + [BelowTarget(kpi.premiumAchievement.value)];
    }
    if kpi.expenseRatio > t.expenseRate {
      issues := issues + [HighExpense(kpi.expenseRatio)];
    }
  }

  /** The scan of `identifyProblemOrganizations`: every group checked in input order. */
  method CollectProblems(results: seq<GroupKpiResult>, t: ThresholdConfig) returns (found: seq<ProblemOrganization>)
    ensures found == ProblemList(results, t)
  {
    found := [];
    var i := 0;
    while i < |results|
      invariant 0 <= i <= |results|
      invariant found == ProblemList(results[..i], t)
    {
      hide ProblemList, IssuesOf, Flagged;
      var issues := CheckGroup(results[i].kpi, t);
      ProblemListSnoc(results[..i], results[i], t);
      if |issues| > 0 {
        found := found + [ProblemOrganization(results[i].name, issues, results[i].kpi)];
      }
      assert results[..i + 1] == results[..i] + [results[i]];
      i := i + 1;
    }
    assert results[..i] == results;
  }

  /** The list cut at `maxProblems` keeps that many flagged groups, each with an issue. */
  lemma CutProblemList(results: seq<GroupKpiResult>, t: ThresholdConfig)
    ensures var p := SliceTo(ProblemList(results, t), t.maxProblems);
            && (t.maxProblems >= 0 ==> |p| == Min(|Filter(results, FlaggedResult(t))|, t.maxProblems))
            && (forall i :: 0 <= i < |p| ==> |p[i].issues| > 0)
  {
    var all := ProblemList(results, t);
    var p := SliceTo(all, t.maxProblems);
    forall i | 0 <= i < |p| ensures |p[i].issues| > 0 {
      assert p[i] == all[i];
    }
  }

  /**
   * The mapper: a business-type relabelling table and the thresholds of the
   * anomaly check, both replaced through setters.
   */
  class BusinessMapper {
    var businessTypeMap: map<string, string>
    var thresholds: ThresholdConfig

    /** A new mapper has no relabelling table and the default thresholds. */
    constructor ()
      ensures businessTypeMap == map[] && thresholds == DefaultThresholds
    {
      businessTypeMap := map[];
      thresholds := DefaultThresholds;
    }

    /** `setBusinessTypeMapping`: replaces the table, keeps the thresholds. */
    method SetBusinessTypeMapping(mapping: map<string, string>)
      modifies this
      ensures businessTypeMap == mapping && thresholds == old(thresholds)
    {
      businessTypeMap := mapping;
    }

    /** `setThresholds`: overrides the supplied thresholds only, keeps the table. */
    method SetThresholds(patch: ThresholdPatch)
      modifies this
      ensures thresholds == MergeThresholds(old(thresholds), patch)
      ensures businessTypeMap == old(businessTypeMap)
    {
      thresholds := MergeThresholds(thresholds, patch);
    }

    /** `applyBusinessTypeMapping`: relabels with the current table. */
    function ApplyBusinessTypeMapping(data: seq<Row>): (r: seq<Row>)
      reads this
      ensures |businessTypeMap| == 0 ==> r == data
      ensures |r| == |data|
      ensures forall i :: 0 <= i < |data| ==>
                r[i] == data[i].(businessTypeCategory := MappedType(businessTypeMap, data[i].businessTypeCategory))
    {
      MapBusinessTypes(businessTypeMap, data)
    }

    /**
     * `identifyProblemOrganizations`: the flagged groups in input order,
     * each with its findings, cut to `maxProblems`.
     */
    method IdentifyProblemOrganizations(results: seq<GroupKpiResult>) returns (problems: seq<ProblemOrganization>)
      ensures problems == SliceTo(ProblemList(results, thresholds), thresholds.maxProblems)
      ensures thresholds.maxProblems >= 0 ==>
                |problems| == Min(|Filter(results, FlaggedResult(thresholds))|, thresholds.maxProblems)
      ensures forall i :: 0 <= i < |problems| ==> |problems[i].issues| > 0
    {
      var found := CollectProblems(results, thresholds);
      problems := SliceTo(found, thresholds.maxProblems);
      CutProblemList(results, thresholds);
    }

    /** `getBusinessTypeStatistics`: tallies by business type. */
    method GetBusinessTypeStatistics(data: seq<Row>) returns (stats: Statistics)
      ensures stats.tallies == TalliesOf(GroupBy(data, BusinessTypeOf))
      ensures CountSum(stats.tallies) == |data| && PremiumSum(stats.tallies) == SumBy(data, SignedOf)
      ensures stats.total == |KeySet(data, BusinessTypeOf)|
    {
      stats := TallyBy(data, BusinessTypeOf);
      TalliesAddUp(data, BusinessTypeOf);
    }

    /** `getCustomerCategoryStatistics`: tallies by customer category. */
    method GetCustomerCategoryStatistics(data: seq<Row>) returns (stats: Statistics)
      ensures stats.tallies == TalliesOf(GroupBy(data, CustomerCategoryOf))
      ensures CountSum(stats.tallies) == |data| && PremiumSum(stats.tallies) == SumBy(data, SignedOf)
      ensures stats.total == |KeySet(data, CustomerCategoryOf)|
    {
      stats := TallyBy(data, CustomerCategoryOf);
      TalliesAddUp(data, CustomerCategoryOf);
    }
  }

  function Min(a: int, b: int): int {
    if a < b then a else b
  }
}
