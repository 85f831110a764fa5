/**
 * The aggregation orchestrator of the TypeScript engine
 * (src/services/aggregator.ts): grouping rows by one dimension, per-group
 * KPIs sorted and cut, the headquarters filter, single/multi-organisation
 * mode detection, the report's organisation name, and the premium-progress
 * chart data.  The source class is stateless, so every method is a function.
 */
module Aggregator {
  import opened Wrappers
  import opened Seqs
  import opened Grouping
  import opened StableSort
  import opened KpiCalculator

  /** `GroupDimension`: the row field a breakdown groups by. */
  datatype Dimension = ThirdLevelOrganization | CustomerCategory | BusinessTypeCategory

  /** The value of `dimension` in a row. */
  function KeyOf(dimension: Dimension): Row -> string {
    match dimension
    case ThirdLevelOrganization => OrgOf
    case CustomerCategory => CustomerCategoryOf
    case BusinessTypeCategory => BusinessTypeOf
  }

  /**
   * `groupByDimension`: one group per distinct value of the dimension, in
   * first-seen order, each holding its rows in input order.
   */
  function GroupByDimension(data: seq<Row>, dimension: Dimension): (groups: seq<Bucket<Row>>)
    ensures IsPartition(groups, data, KeyOf(dimension))
    ensures multiset(Flatten(groups)) == multiset(data)
    ensures |groups| == |KeySet(data, KeyOf(dimension))|
  {
    GroupByIsPartition(data, KeyOf(dimension));
    GroupByPermutation(data, KeyOf(dimension));
    GroupCountIsDistinctKeys(data, KeyOf(dimension));
    GroupBy(data, KeyOf(dimension))
  }

  /** Every group total of a quantity adds up to the total over all rows. */
  lemma GroupTotalsAddUp(data: seq<Row>, dimension: Dimension)
    ensures SumOverBuckets(GroupByDimension(data, dimension), SignedOf) == SumBy(data, SignedOf)
    ensures CountOverBuckets(GroupByDimension(data, dimension)) == |data|
  {
    GroupBySums(data, KeyOf(dimension), SignedOf);
  }

  /**
   * The KPI a breakdown can be sorted by (`keyof GroupKPIResult['kpi']`),
   * restricted to the fields that are always numbers.
   */
  datatype SortKey =
    | SignedPremium | MaturedPremium | ReportedClaim | ExpenseAmount | PolicyCount | ClaimCaseCount
    | LossRatio | VariableCostRatio | CombinedCostRatio | ExpenseRatio | ContributionRatio
    | ClaimFrequency | MaturityRatio | PerClaimAverage | MarginalContribution

  /** The value of `sortBy` in a KPI record. */
  function FieldValue(k: KpiResult, sortBy: SortKey): real {
    match sortBy
    case SignedPremium => k.signedPremium
    case MaturedPremium => k.maturedPremium
    case ReportedClaim => k.reportedClaim
    case ExpenseAmount => k.expenseAmount
    case PolicyCount => k.policyCount
    case ClaimCaseCount => k.claimCaseCount
    case LossRatio => k.lossRatio
    case VariableCostRatio => k.variableCostRatio
    case CombinedCostRatio => k.combinedCostRatio
    case ExpenseRatio => k.expenseRatio
    case ContributionRatio => k.contributionRatio
    case ClaimFrequency => k.claimFrequency
    case MaturityRatio => k.maturityRatio
    case PerClaimAverage => k.perClaimAverage
    case MarginalContribution => k.marginalContribution
  }

  /** `result => result.kpi[sortBy]`. */
  function ResultKey(sortBy: SortKey): GroupKpiResult -> real {
    (g: GroupKpiResult) => FieldValue(g.kpi, sortBy)
  }

  /** The per-group KPIs of a breakdown, with the default options, before sorting. */
  function GroupResults(data: seq<Row>, dimension: Dimension): seq<GroupKpiResult> {
    CalculateGroupKpis(GroupByDimension(data, dimension), DefaultOptions)
  }

  /** The name of every per-group result is a distinct value of the dimension. */
  lemma GroupResultNames(data: seq<Row>, dimension: Dimension, g: GroupKpiResult)
    requires g in GroupResults(data, dimension)
    ensures g.name in KeySet(data, KeyOf(dimension))
    ensures g.rowCount > 0
  {
    var groups := GroupByDimension(data, dimension);
    var i :| 0 <= i < |GroupResults(data, dimension)| && GroupResults(data, dimension)[i] == g;
    assert g.name == groups[i].name && groups[i].name in NameSet(groups);
  }

  /**
   * The sorted breakdown: non-increasing by `sortBy`, a permutation of the
   * per-group results, ties kept in group order, one entry per distinct value.
   */
  function SortedGroupResults(data: seq<Row>, dimension: Dimension, sortBy: SortKey): (s: seq<GroupKpiResult>)
    ensures SortedDesc(s, ResultKey(sortBy))
    ensures multiset(s) == multiset(GroupResults(data, dimension))
    ensures SameOrderPerKey(s, GroupResults(data, dimension), ResultKey(sortBy))
    ensures |s| == |KeySet(data, KeyOf(dimension))|
  {
    SortDescCorrect(GroupResults(data, dimension), ResultKey(sortBy));
    var s := SortDesc(GroupResults(data, dimension), ResultKey(sortBy));
    assert |s| == |multiset(s)| == |GroupResults(data, dimension)|;
    s
  }

  /** JavaScript truthiness of an optional number: present and not 0. */
  predicate TruthyLimit(limit: Option<int>) {
    limit.Some? && limit.value != 0
  }

  /**
   * `calculateGroupedKPIs`: the sorted breakdown, cut to `slice(0, limit)`
   * when `limit` is truthy; an absent or zero limit keeps every group.
   */
  function CalculateGroupedKpis(data: seq<Row>, dimension: Dimension, sortBy: SortKey, limit: Option<int>)
    : (r: seq<GroupKpiResult>)
    ensures var s := SortedGroupResults(data, dimension, sortBy);
      && |r| <= |s| && r == s[..|r|]
      && |r| == (if TruthyLimit(limit) then SliceEnd(|s|, limit.value) else |s|)
    ensures SortedDesc(r, ResultKey(sortBy))
    ensures forall i :: 0 <= i < |r| ==> r[i] in GroupResults(data, dimension)
  {
    hide SortedGroupResults, GroupResults, CalculateGroupKpis, GroupByDimension, SortedDesc, SameOrderPerKey, CalculateKpis;
    var s := SortedGroupResults(data, dimension, sortBy);
    var r := if TruthyLimit(limit) then SliceTo(s, limit.value) else s;
    PrefixMembers(r, s, GroupResults(data, dimension));
    SortedDescPrefix(r, s, ResultKey(sortBy));
    r
  }

  /** The breakdown's default sort key is 签单保费. */
  function CalculateGroupedKpisDefault(data: seq<Row>, dimension: Dimension, limit: Option<int>): (r: seq<GroupKpiResult>)
    ensures SortedDesc(r, ResultKey(SignedPremium))
  {
    CalculateGroupedKpis(data, dimension, SignedPremium, limit)
  }

  /** A limit of 0 or no limit keeps every group; a limit at least the group count does too. */
  lemma LimitKeepsAll(data: seq<Row>, dimension: Dimension, sortBy: SortKey, limit: Option<int>)
    requires !TruthyLimit(limit) || limit.value >= |KeySet(data, KeyOf(dimension))|
    ensures CalculateGroupedKpis(data, dimension, sortBy, limit) == SortedGroupResults(data, dimension, sortBy)
  {
  }

  /**
   * An organisation name that denotes a head office: 本部 or 总部 occurs
   * somewhere in it, so it is at least two characters long.
   */
  predicate IsHeadquarters(name: string): (hq: bool)
    ensures hq <==> exists i: nat :: i <= |name| && (OccursAt(name, "本部", i) || OccursAt(name, "总部", i))
    ensures hq ==> |name| >= 2
  {
    ContainsIff(name, "本部");
    ContainsIff(name, "总部");
    Contains(name, "本部") || Contains(name, "总部")
  }

  /** The row does not belong to a head office. */
  function NotHeadquarters(row: Row): bool {
    !IsHeadquarters(row.thirdLevelOrganization)
  }

  /**
   * `filterOutHeadquarters`: every row whose organisation names neither
   * 本部 nor 总部, each as often as in the input, in input order.
   */
  function FilterOutHeadquarters(data: seq<Row>): (r: seq<Row>)
    ensures forall i :: 0 <= i < |r| ==> !IsHeadquarters(r[i].thirdLevelOrganization)
    ensures forall x :: multiset(r)[x] == if IsHeadquarters(x.thirdLevelOrganization) then 0 else multiset(data)[x]
  {
    FilterOutCounts(data);
    Filter(data, NotHeadquarters)
  }

  lemma FilterOutCounts(data: seq<Row>)
    ensures forall x :: multiset(Filter(data, NotHeadquarters))[x]
                     == if IsHeadquarters(x.thirdLevelOrganization) then 0 else multiset(data)[x]
  {
    forall x ensures multiset(Filter(data, NotHeadquarters))[x]
                  == if IsHeadquarters(x.thirdLevelOrganization) then 0 else multiset(data)[x] {
      FilterMultiset(data, NotHeadquarters, x);
    }
  }

  /** The filter keeps input order: it commutes with concatenation. */
  lemma FilterOutHeadquartersConcat(a: seq<Row>, b: seq<Row>)
    ensures FilterOutHeadquarters(a + b) == FilterOutHeadquarters(a) + FilterOutHeadquarters(b)
  {
    FilterConcat(a, b, NotHeadquarters);
  }

  /** The filter is idempotent. */
  lemma {:induction false} FilterOutHeadquartersIdempotent(data: seq<Row>)
    ensures FilterOutHeadquarters(FilterOutHeadquarters(data)) == FilterOutHeadquarters(data)
    decreases |data|
  {
    if data != [] {
      var init, x := data[..|data| - 1], data[|data| - 1];
      assert data == init + [x];
      FilterOutHeadquartersConcat(init, [x]);
      FilterOutHeadquartersIdempotent(init);
      assert [x][..0] == [];
      FilterOutHeadquartersConcat(FilterOutHeadquarters(init), FilterOutHeadquarters([x]));
    }
  }

  /** A regional office is kept, a 本部 row is dropped. */
  lemma HeadquartersExample()
    ensures !IsHeadquarters("天府")
    ensures IsHeadquarters("成都本部")
    ensures IsHeadquarters("总部")
  {
    ShortNotContains("天府"[1..], "本部");
    ShortNotContains("天府"[1..], "总部");
    assert !IsPrefix("本部", "天府") && !IsPrefix("总部", "天府") by {
      assert "天府"[..2][0] == '天';
    }
    assert IsPrefix("本部", "成都本部"[2..]);
    assert IsPrefix("本部", "都本部"[1..]);
    assert IsPrefix("总部", "总部");
  }

  /** The number of distinct organisations in the rows (`new Set(...).size`). */
  function OrgCount(data: seq<Row>): nat {
    |KeySet(data, OrgOf)|
  }

  /**
   * `isSingleOrgMode`: exactly one distinct organisation, that is, there is
   * a row and every row names the first row's organisation; in particular
   * never for no rows.
   */
  predicate IsSingleOrgMode(data: seq<Row>): (single: bool)
    ensures single <==>
              |data| > 0 && forall i :: 0 <= i < |data| ==> data[i].thirdLevelOrganization == data[0].thirdLevelOrganization
  {
    OneOrganizationIff(data);
    OrgCount(data) == 1
  }

  /**
   * `isMultiOrgMode`: twelve or more distinct organisations, as many as the
   * groups of an organisation breakdown; it needs at least twelve rows.
   */
  predicate IsMultiOrgMode(data: seq<Row>): (multi: bool)
    ensures multi <==> |GroupByDimension(data, ThirdLevelOrganization)| >= 12
    ensures multi ==> |data| >= 12
  {
    assert KeyOf(ThirdLevelOrganization) == OrgOf;
    GroupCountIsDistinctKeys(data, OrgOf);
    OrgCount(data) >= 12
  }

  /** One distinct organisation exactly when there is a row and all rows name the first one's. */
  lemma OneOrganizationIff(data: seq<Row>)
    ensures OrgCount(data) == 1 <==>
              |data| > 0 && forall i :: 0 <= i < |data| ==> data[i].thirdLevelOrganization == data[0].thirdLevelOrganization
  {
    var keys := KeySet(data, OrgOf);
    if |data| > 0 {
      var o := data[0].thirdLevelOrganization;
      assert OrgOf(data[0]) == o;
      assert o in keys;
      if forall i :: 0 <= i < |data| ==> data[i].thirdLevelOrganization == o {
        assert keys == {o} by {
          forall k | k in keys ensures k == o {
            var i :| 0 <= i < |data| && OrgOf(data[i]) == k;
          }
        }
      } else {
        var i :| 0 <= i < |data| && data[i].thirdLevelOrganization != o;
        assert OrgOf(data[i]) in keys;
        assert {o, data[i].thirdLevelOrganization} <= keys;
        assert |{o, data[i].thirdLevelOrganization}| == 2;
        SubsetSize({o, data[i].thirdLevelOrganization}, keys);
      }
    } else {
      assert keys == {};
    }
  }

  lemma SubsetSize(a: set<string>, b: set<string>)
    requires a <= b
    ensures |a| <= |b|
  {
    assert b == a + (b - a);
  }

  /** Multi-organisation mode counts the same groups an organisation breakdown has. */
  lemma MultiOrgModeIsGroupCount(data: seq<Row>)
    ensures IsMultiOrgMode(data) <==> |GroupByDimension(data, ThirdLevelOrganization)| >= 12
    ensures IsSingleOrgMode(data) <==> |GroupByDimension(data, ThirdLevelOrganization)| == 1
    ensures !(IsSingleOrgMode(data) && IsMultiOrgMode(data))
  {
    assert KeyOf(ThirdLevelOrganization) == OrgOf;
  }

  const UnknownOrganization: string := "未知机构"
  const BranchCompany: string := "分公司"

  /**
   * `getOrganizationName`: 未知机构 without rows; the sole organisation in
   * single-organisation mode (未知机构 when its name is empty); otherwise
   * the first row's second-level organisation, or 分公司 without one.
   */
  function GetOrganizationName(data: seq<Row>): (name: string)
    ensures name != ""
    ensures |data| == 0 ==> name == UnknownOrganization
    ensures IsSingleOrgMode(data) ==>
              forall i :: 0 <= i < |data| ==>
                data[i].thirdLevelOrganization == name || (data[i].thirdLevelOrganization == "" && name == UnknownOrganization)
    ensures |data| > 0 && !IsSingleOrgMode(data) ==>
              name == (if data[0].secondLevelOrganization != "" then data[0].secondLevelOrganization else BranchCompany)
  {
    if |data| == 0 then UnknownOrganization
    else if IsSingleOrgMode(data) then
      if data[0].thirdLevelOrganization != "" then data[0].thirdLevelOrganization else UnknownOrganization
    else if data[0].secondLevelOrganization != "" then data[0].secondLevelOrganization
    else BranchCompany
  }

  /** `result.kpi.保费达成率 || 0`. */
  function AchievementOrZero(g: GroupKpiResult): real {
    g.kpi.premiumAchievement.GetOr(0.0)
  }

  /** `result.kpi.签单保费`. */
  function SignedPremiumOf(g: GroupKpiResult): real {
    g.kpi.signedPremium
  }

  /** Some group carries a row plan. */
  predicate AnyHasPlan(results: seq<GroupKpiResult>) {
    exists i :: 0 <= i < |results| && results[i].hasYearPlan
  }

  /** The progress chart's ordering key: achievement when some group has a plan, else premium. */
  function ProgressKey(results: seq<GroupKpiResult>): GroupKpiResult -> real {
    if AnyHasPlan(results) then AchievementOrZero else SignedPremiumOf
  }

  /**
   * `sortByPremiumProgress`: a stable permutation of the results,
   * ascending by achievement (missing counts as 0) when some group has a
   * plan, otherwise ascending by signed premium.
   */
  function SortByPremiumProgress(results: seq<GroupKpiResult>): (r: seq<GroupKpiResult>)
    ensures multiset(r) == multiset(results)
    ensures AnyHasPlan(results) ==> SortedAsc(r, AchievementOrZero)
    ensures !AnyHasPlan(results) ==> SortedAsc(r, SignedPremiumOf)
    ensures SameOrderPerKey(r, results, ProgressKey(results))
  {
    SortAscCorrect(results, ProgressKey(results));
    SortAsc(results, ProgressKey(results))
  }

  /** `getTopN`: `results.slice(0, n)`. */
  function GetTopN(results: seq<GroupKpiResult>, n: int): (r: seq<GroupKpiResult>)
    ensures |r| <= |results| && r == results[..|r|]
    ensures 0 <= n ==> |r| == if n < |results| then n else |results|
  {
    SliceTo(results, n)
  }

  /** The premium-progress chart: parallel columns, one entry per organisation shown. */
  datatype ProgressData = ProgressData(
    organizations: seq<string>,
    actual: seq<real>,
    target: seq<real>,
    achievementRate: seq<real>,
    hasPlans: bool)

  /** The per-organisation results without head offices. */
  function NonHeadquarterResults(results: seq<GroupKpiResult>): seq<GroupKpiResult> {
    Filter(results, (g: GroupKpiResult) => !IsHeadquarters(g.name))
  }

  /**
   * A group with a plan among the first entries of a permutation of `kept`
   * is a group of `kept`, so when the permutation is in achievement order
   * for `kept` having a plan, the entries shown are in achievement order.
   */
  lemma PrefixPlans(shown: seq<GroupKpiResult>, sorted: seq<GroupKpiResult>, kept: seq<GroupKpiResult>)
    requires |shown| <= |sorted| && shown == sorted[..|shown|] && multiset(sorted) == multiset(kept)
    requires AnyHasPlan(kept) ==> SortedAsc(sorted, AchievementOrZero)
    ensures AnyHasPlan(shown) ==> AnyHasPlan(kept) && SortedAsc(shown, AchievementOrZero)
  {
    if AnyHasPlan(shown) {
      var i :| 0 <= i < |shown| && shown[i].hasYearPlan;
      PrefixMembers(shown, sorted, kept);
      var j :| 0 <= j < |kept| && kept[j] == shown[i];
      SortedAscPrefix(shown, sorted, AchievementOrZero);
    }
  }

  lemma ShownNames(data: seq<Row>, shown: seq<GroupKpiResult>)
    requires forall i :: 0 <= i < |shown| ==> shown[i] in ProgressCandidates(data)
    ensures forall i :: 0 <= i < |shown| ==> !IsHeadquarters(shown[i].name) && shown[i].name in KeySet(data, OrgOf)
  {
    hide CalculateKpis, RoundKpiResult, RawKpis, KpisFromTotals;
    var all := CalculateGroupedKpis(data, ThirdLevelOrganization, SignedPremium, None);
    var kept := ProgressCandidates(data);
    forall i | 0 <= i < |shown| ensures !IsHeadquarters(shown[i].name) && shown[i].name in KeySet(data, OrgOf) {
      assert shown[i] in kept;
      var j :| 0 <= j < |kept| && kept[j] == shown[i];
      var k :| 0 <= k < |all| && all[k] == shown[i];
      GroupResultNames(data, ThirdLevelOrganization, shown[i]);
    }
  }

  /**
   * The shown prefix of the progress order is itself in premium order when
   * no group has a plan, and no group left out is ahead of a shown one.
   */
  lemma ProgressLowest(shown: seq<GroupKpiResult>, kept: seq<GroupKpiResult>)
    requires shown == GetTopN(SortByPremiumProgress(kept), 12)
    ensures !AnyHasPlan(kept) ==> SortedAsc(shown, SignedPremiumOf)
    ensures forall i, g :: 0 <= i < |shown| && g in kept && g !in shown ==> ProgressKey(kept)(shown[i]) <= ProgressKey(kept)(g)
  {
    var sorted := SortByPremiumProgress(kept);
    if AnyHasPlan(kept) {
      SortedAscPrefixLowest(shown, sorted, kept, AchievementOrZero);
    } else {
      SortedAscPrefix(shown, sorted, SignedPremiumOf);
      SortedAscPrefixLowest(shown, sorted, kept, SignedPremiumOf);
    }
  }

  /** The organisation results the progress chart chooses from: every organisation but the head offices. */
  function ProgressCandidates(data: seq<Row>): seq<GroupKpiResult> {
    NonHeadquarterResults(CalculateGroupedKpis(data, ThirdLevelOrganization, SignedPremium, None))
  }

  /**
   * The organisations shown, in chart order: the first twelve of the
   * non-head-office results in progress order.
   */
  function ProgressResults(data: seq<Row>): (shown: seq<GroupKpiResult>)
    ensures shown == GetTopN(SortByPremiumProgress(ProgressCandidates(data)), 12)
    ensures |shown| == if |ProgressCandidates(data)| < 12 then |ProgressCandidates(data)| else 12
    ensures forall i :: 0 <= i < |shown| ==> !IsHeadquarters(shown[i].name)
    ensures forall i :: 0 <= i < |shown| ==> shown[i].name in KeySet(data, OrgOf)
    ensures AnyHasPlan(shown) ==> SortedAsc(shown, AchievementOrZero)
    ensures !AnyHasPlan(ProgressCandidates(data)) ==> SortedAsc(shown, SignedPremiumOf)
  {
    hide *;
    var kept := ProgressCandidates(data);
    var sorted := SortByPremiumProgress(kept);
    var shown := GetTopN(sorted, 12);
    assert |sorted| == |multiset(sorted)| == |multiset(kept)| == |kept|;
    PrefixMembers(shown, sorted, kept);
    ShownNames(data, shown);
    PrefixPlans(shown, sorted, kept);
    ProgressLowest(shown, kept);
    shown
  }

  /**
   * The chart shows the organisations furthest behind: no organisation left
   * out has a smaller progress key than one shown.
   */
  lemma ProgressShowsLowest(data: seq<Row>)
    ensures var shown := ProgressResults(data);
      forall i, g :: 0 <= i < |shown| && g in ProgressCandidates(data) && g !in shown ==>
        ProgressKey(ProgressCandidates(data))(shown[i]) <= ProgressKey(ProgressCandidates(data))(g)
  {
    ProgressLowest(ProgressResults(data), ProgressCandidates(data));
  }

  /** `r.kpi.签单保费`. */
  function ActualOf(g: GroupKpiResult): real { g.kpi.signedPremium }

  /** `r.kpi.年度保费计划 || 0`. */
  function TargetOf(g: GroupKpiResult): real { g.kpi.annualPlan.GetOr(0.0) }

  /**
   * The chart columns of the shown results: one entry per result in each
   * column, and `hasPlans` exactly when some result has a plan; when the
   * results are in ascending achievement order the rates column is too.
   */
  function ProgressOf(shown: seq<GroupKpiResult>): (p: ProgressData)
    ensures |p.organizations| == |shown|
    ensures |p.actual| == |shown| && |p.target| == |shown| && |p.achievementRate| == |shown|
    ensures forall i :: 0 <= i < |shown| ==>
              && p.organizations[i] == shown[i].name
              && p.actual[i] == ActualOf(shown[i])
              && p.target[i] == TargetOf(shown[i])
              && p.achievementRate[i] == AchievementOrZero(shown[i])
    ensures p.hasPlans <==> AnyHasPlan(shown)
    ensures SortedAsc(shown, AchievementOrZero) ==>
              forall i, j :: 0 <= i < j < |p.achievementRate| ==> p.achievementRate[i] <= p.achievementRate[j]
  {
    ProgressData(
      seq(|shown|, i requires 0 <= i < |shown| => shown[i].name),
      seq(|shown|, i requires 0 <= i < |shown| => ActualOf(shown[i])),
      seq(|shown|, i requires 0 <= i < |shown| => TargetOf(shown[i])),
      seq(|shown|, i requires 0 <= i < |shown| => AchievementOrZero(shown[i])),
      AnyHasPlan(shown))
  }

  /**
   * `getPremiumProgressData`: at most 12 organisations, none a head office,
   * all four columns of one length; targets and rates read a missing value
   * as 0; with a plan among them the rates are ascending.
   */
  function GetPremiumProgressData(data: seq<Row>): (p: ProgressData)
    ensures |p.organizations| <= 12
    ensures |p.actual| == |p.organizations| && |p.target| == |p.organizations| && |p.achievementRate| == |p.organizations|
    ensures forall i :: 0 <= i < |p.organizations| ==> !IsHeadquarters(p.organizations[i])
    ensures forall i :: 0 <= i < |p.organizations| ==> p.organizations[i] in KeySet(data, OrgOf)
    ensures p.hasPlans ==> forall i, j :: 0 <= i < j < |p.achievementRate| ==> p.achievementRate[i] <= p.achievementRate[j]
    ensures p == ProgressOf(ProgressResults(data))
  {
    hide *;
    ProgressNames(data);
    ProgressColumns(data);
    ProgressOf(ProgressResults(data))
  }

  /** The chart has at most twelve rows, four columns of one length, and ascending rates when a plan is present. */
  lemma ProgressColumns(data: seq<Row>)
    ensures var p := ProgressOf(ProgressResults(data));
      && |p.organizations| <= 12
      && |p.actual| == |p.organizations| && |p.target| == |p.organizations| && |p.achievementRate| == |p.organizations|
      && (p.hasPlans ==> forall i, j :: 0 <= i < j < |p.achievementRate| ==> p.achievementRate[i] <= p.achievementRate[j])
  {
    hide *;
    var p := ProgressOf(ProgressResults(data));
  }

  /** The organisations named in the chart are organisations of the data and none is a head office. */
  lemma ProgressNames(data: seq<Row>)
    ensures var p := ProgressOf(ProgressResults(data));
      forall i :: 0 <= i < |p.organizations| ==> !IsHeadquarters(p.organizations[i]) && p.organizations[i] in KeySet(data, OrgOf)
  {
    hide IsHeadquarters, KeySet;
    var shown := ProgressResults(data);
    var p := ProgressOf(shown);
    assert forall i :: 0 <= i < |p.organizations| ==> p.organizations[i] == shown[i].name;
  }
}
