/**
 * What the TypeScript loader does with a CSV file once the CSV parser has
 * run (src/services/data-loader.ts): report parser errors, reject an empty
 * file, check the required columns on the first row, clean every row, and
 * summarise the rows.  The parser itself (header trimming, type detection)
 * is not part of this model: its outcome, the rows it produced and the
 * errors it reported, is the input.
 */
module DataLoader {
  import opened Wrappers
  import opened Seqs
  import opened MathUtils
  import opened Grouping
  import opened KpiCalculator
  import BusinessMapping

  /** A parsed row: header name to cell value. */
  type RawRow = map<string, JsValue>

  /**
   * JavaScript truthiness of a cell.  A non-finite number out of the parser
   * is an overflowing literal such as `1e999`, that is an infinity, which is
   * truthy; the parser never yields NaN.
   */
  predicate JsTruthy(v: JsValue) {
    match v
    case JsNumber(n) => n != 0.0
    case NonFinite => true
    case JsString(text, _) => text != ""
    case JsBool(b) => b
    case JsNull => false
    case JsUndefined => false
  }

  /** `row[column]`: an absent column reads as `undefined`. */
  function Cell(row: RawRow, column: string): (v: JsValue)
    ensures column !in row ==> v == JsUndefined
  {
    if column in row then row[column] else JsUndefined
  }

  const OrganizationColumn: string := "third_level_organization"
  const BusinessTypeColumn: string := "business_type_category"
  const CustomerCategoryColumn: string := "customer_category"

  /** `REQUIRED_COLUMNS`, in declaration order (src/types/data.ts). */
  const RequiredColumns: seq<string> := [
    OrganizationColumn,
    BusinessTypeColumn,
    "signed_premium_yuan",
    "matured_premium_yuan",
    "reported_claim_payment_yuan",
    "ibnr_yuan",
    "acquisition_cost_yuan",
    "operating_expense_yuan"]

  /** `NUMERIC_COLUMNS`, in declaration order (src/types/data.ts). */
  const NumericColumns: seq<string> := [
    "signed_premium_yuan",
    "matured_premium_yuan",
    "reported_claim_payment_yuan",
    "ibnr_yuan",
    "acquisition_cost_yuan",
    "operating_expense_yuan",
    "year_plan_premium"]

  /** The text columns `cleanData` fills in when they are falsy. */
  const TextColumns: set<string> := {OrganizationColumn, BusinessTypeColumn, CustomerCategoryColumn}

  const UnknownOrganization: string := "未知机构"
  const OtherCategory: string := "其他"

  /** The filler of a text column: 未知机构 for the organisation, 其他 for the two categories. */
  function TextDefault(column: string): string
    requires column in TextColumns
  {
    if column == OrganizationColumn then UnknownOrganization else OtherCategory
  }

  /** A string cell as a CSV value: `Number("未知机构")` and `Number("其他")` are NaN. */
  function TextCell(text: string): JsValue {
    JsString(text, None)
  }

  /**
   * The value a column has after cleaning: a numeric column that is present
   * goes through `ensureNumber(v, 0)`, a falsy or absent text column takes
   * its filler, and every other cell is the original one.
   */
  function CleanedCell(row: RawRow, column: string): JsValue {
    if column in NumericColumns && column in row then JsNumber(EnsureNumber(row[column], 0.0))
    else if column in TextColumns && !JsTruthy(Cell(row, column)) then TextCell(TextDefault(column))
    else Cell(row, column)
  }

  /**
   * `cleaned` is the copy `cleanData` makes of `row`: the columns of the row
   * plus the three text columns, each holding its cleaned value.
   */
  ghost predicate IsCleaned(row: RawRow, cleaned: RawRow) {
    && cleaned.Keys == row.Keys + TextColumns
    && forall column :: column in cleaned ==> cleaned[column] == CleanedCell(row, column)
  }

  /** One row of `cleanData`: a copy, the numeric columns in order, then the three text columns. */
  method CleanRow(row: RawRow) returns (cleaned: RawRow)
    ensures IsCleaned(row, cleaned)
  {
    ColumnNames();
    hide OrganizationColumn, BusinessTypeColumn, CustomerCategoryColumn, NumericColumns, EnsureNumber, JsTruthy, TextDefault;
    var numeric := CleanNumeric(row);
    var withOrganization := FillText(numeric, OrganizationColumn);
    var withType := FillText(withOrganization, BusinessTypeColumn);
    cleaned := FillText(withType, CustomerCategoryColumn);
    forall column | column in cleaned
      ensures cleaned[column] == CleanedCell(row, column)
    {
      if column == CustomerCategoryColumn {
        assert Cell(withType, column) == Cell(row, column);
      } else if column == BusinessTypeColumn {
        assert Cell(withOrganization, column) == Cell(row, column);
      } else if column == OrganizationColumn {
        assert Cell(numeric, column) == Cell(row, column);
      } else {
        assert cleaned[column] == numeric[column];
      }
    }
  }

  /** The three text columns are distinct, and none of them is numeric. */
  lemma ColumnNames()
    ensures OrganizationColumn != BusinessTypeColumn && OrganizationColumn != CustomerCategoryColumn
    ensures BusinessTypeColumn != CustomerCategoryColumn
    ensures forall column :: column in TextColumns ==> column !in NumericColumns
  {
  }

  /** The `forEach` over `NUMERIC_COLUMNS`: each one present goes through `ensureNumber(v, 0)`. */
  method CleanNumeric(row: RawRow) returns (cleaned: RawRow)
    ensures cleaned.Keys == row.Keys
    ensures forall column :: column in cleaned ==>
              cleaned[column] == if column in NumericColumns then JsNumber(EnsureNumber(row[column], 0.0)) else row[column]
    ensures forall column :: column !in NumericColumns ==> Cell(cleaned, column) == Cell(row, column)
  {
    cleaned := row;
    for i := 0 to |NumericColumns|
      invariant cleaned.Keys == row.Keys
      invariant forall column :: column in cleaned ==>
                  cleaned[column] == if column in NumericColumns[..i] then JsNumber(EnsureNumber(row[column], 0.0)) else row[column]
    {
      var column := NumericColumns[i];
      assert column !in NumericColumns[..i];
      assert NumericColumns[..i + 1] == NumericColumns[..i] + [column];
      if column in cleaned {
        cleaned := cleaned[column := JsNumber(EnsureNumber(cleaned[column], 0.0))];
      }
    }
    assert NumericColumns[..|NumericColumns|] == NumericColumns;
  }

  /** `if (!cleaned[column]) cleaned[column] = filler`. */
  method FillText(row: RawRow, column: string) returns (filled: RawRow)
    requires column in TextColumns
    ensures filled.Keys == row.Keys + {column}
    ensures filled[column] == if JsTruthy(Cell(row, column)) then Cell(row, column) else TextCell(TextDefault(column))
    ensures forall other :: other in row && other != column ==> filled[other] == row[other]
    ensures forall other :: other != column ==> Cell(filled, other) == Cell(row, other)
  {
    filled := row;
    if !JsTruthy(Cell(row, column)) {
      filled := row[column := TextCell(TextDefault(column))];
    }
  }

  /** `cleanData`: every row cleaned, one output row per input row, in order. */
  method CleanData(data: seq<RawRow>) returns (cleaned: seq<RawRow>)
    ensures |cleaned| == |data|
    ensures forall i :: 0 <= i < |data| ==> IsCleaned(data[i], cleaned[i])
  {
    cleaned := [];
    for i := 0 to |data|
      invariant |cleaned| == i
      invariant forall j :: 0 <= j < i ==> IsCleaned(data[j], cleaned[j])
    {
      var row := CleanRow(data[i]);
      cleaned := cleaned + [row];
    }
  }

  /** The cleaned copy of a row is determined by the row. */
  lemma CleanedUnique(row: RawRow, a: RawRow, b: RawRow)
    requires IsCleaned(row, a) && IsCleaned(row, b)
    ensures a == b
  {
    assert a.Keys == b.Keys;
    assert forall column :: column in a ==> a[column] == b[column];
  }

  /**
   * After cleaning, every numeric column present holds a number and the
   * three text columns are present and truthy; no other cell changes.
   */
  lemma CleanedShape(row: RawRow, cleaned: RawRow)
    requires IsCleaned(row, cleaned)
    ensures forall column :: column in NumericColumns && column in cleaned ==> cleaned[column].JsNumber?
    ensures forall column :: column in TextColumns ==> column in cleaned && JsTruthy(cleaned[column])
    ensures forall column :: column in row && column !in NumericColumns && column !in TextColumns ==>
              column in cleaned && cleaned[column] == row[column]
  {
    ColumnNames();
    hide OrganizationColumn, BusinessTypeColumn, CustomerCategoryColumn, NumericColumns, EnsureNumber;
  }

  /** Cleaning a cleaned row changes nothing. */
  lemma CleanIdempotent(row: RawRow, cleaned: RawRow)
    requires IsCleaned(row, cleaned)
    ensures IsCleaned(cleaned, cleaned)
  {
    CleanedShape(row, cleaned);
    ColumnNames();
    hide OrganizationColumn, BusinessTypeColumn, CustomerCategoryColumn, NumericColumns;
  }

  /**
   * The column count of a cleaned row whose source passed validation: the
   * row's own columns, plus one when `customer_category` was missing and
   * cleaning added it.
   */
  lemma CleanedColumnCount(row: RawRow, cleaned: RawRow)
    requires IsCleaned(row, cleaned)
    requires OrganizationColumn in row && BusinessTypeColumn in row
    ensures |cleaned.Keys| == |row.Keys| + (if CustomerCategoryColumn in row then 0 else 1)
  {
    hide OrganizationColumn, BusinessTypeColumn, CustomerCategoryColumn, CleanedCell;
    assert cleaned.Keys == row.Keys + {CustomerCategoryColumn};
  }

  datatype ErrorKind = MissingColumn | InvalidValue | EmptyData

  /** A loader error; `details` is empty where the source leaves it unset. */
  datatype ValidationError = ValidationError(kind: ErrorKind, message: string, details: seq<string>)

  /** The predicate "the column is not a column of `first`". */
  function AbsentFrom(first: RawRow): string -> bool {
    column => column !in first
  }

  /** The required columns absent from `first`, in declaration order. */
  function MissingColumns(first: RawRow): (missing: seq<string>)
    ensures forall column :: column in missing <==> column in RequiredColumns && column !in first
  {
    Filter(RequiredColumns, AbsentFrom(first))
  }

  /**
   * `validateData`: an empty list is an `empty_data` error; otherwise only
   * the FIRST row's columns are checked, and the missing required columns
   * are reported, in declaration order, as one `missing_column` error.
   */
  method ValidateData(data: seq<RawRow>) returns (errors: seq<ValidationError>)
    ensures data == [] ==> errors == [ValidationError(EmptyData, "数据为空", [])]
    ensures data != [] ==> (errors == [] <==> MissingColumns(data[0]) == [])
    ensures data != [] && errors != [] ==>
              errors == [ValidationError(MissingColumn, "CSV文件缺失必要列", MissingColumns(data[0]))]
  {
    errors := [];
    if |data| == 0 {
      errors := errors + [ValidationError(EmptyData, "数据为空", [])];
      return;
    }
    var missing := MissingColumns(data[0]);
    if |missing| > 0 {
      errors := errors + [ValidationError(MissingColumn, "CSV文件缺失必要列", missing)];
    }
  }

  /** Validation passes exactly when the first row has every required column. */
  lemma NoMissingIff(first: RawRow)
    ensures MissingColumns(first) == [] <==> forall column :: column in RequiredColumns ==> column in first
  {
    var missing := MissingColumns(first);
    if missing != [] {
      assert missing[0] in missing;
    }
  }

  /** A parser error: the row it names (`undefined` for some errors) and its message. */
  datatype ParseError = ParseError(row: Option<nat>, message: string)

  /** The parser's outcome: the rows read and the errors it reported. */
  datatype ParseOutcome = ParseOutcome(data: seq<RawRow>, errors: seq<ParseError>)

  datatype DataLoadResult =
    | Failure(errors: seq<ValidationError>)
    | Success(data: seq<RawRow>, rowCount: nat, columnCount: nat)

  /** The decimal digits of a natural number, as a template literal prints it. */
  function DecimalText(n: nat): (s: string)
    ensures |s| > 0 && forall i :: 0 <= i < |s| ==> '0' <= s[i] <= '9'
    ensures n < 10 <==> |s| == 1
  {
    if n < 10 then ["0123456789"[n]]
    else DecimalText(n / 10) + ["0123456789"[n % 10]]
  }

  /** `第${e.row}行: ${e.message}`. */
  function ErrorDetail(e: ParseError): string {
    "第" + (match e.row case Some(r) => DecimalText(r) case None => "undefined") + "行: " + e.message
  }

  /** One detail line per parser error, in order. */
  function ErrorDetails(errors: seq<ParseError>): (details: seq<string>)
    ensures |details| == |errors| && forall i :: 0 <= i < |errors| ==> details[i] == ErrorDetail(errors[i])
  {
    seq(|errors|, i requires 0 <= i < |errors| => ErrorDetail(errors[i]))
  }

  /**
   * The post-parse branch of `parseCSV`: parser errors win over everything,
   * then an empty file, then the column check; a success carries the
   * cleaned rows, their number and the column count of the first cleaned
   * row.
   */
  method ParseCsv(parsed: ParseOutcome) returns (result: DataLoadResult)
    ensures parsed.errors != [] ==>
              result == Failure([ValidationError(InvalidValue, "CSV解析失败", ErrorDetails(parsed.errors))])
    ensures parsed.errors == [] && parsed.data == [] ==>
              result == Failure([ValidationError(EmptyData, "CSV文件为空", [])])
    ensures parsed.errors == [] && parsed.data != [] && MissingColumns(parsed.data[0]) != [] ==>
              result == Failure([ValidationError(MissingColumn, "CSV文件缺失必要列", MissingColumns(parsed.data[0]))])
    ensures result.Success? <==> parsed.errors == [] && parsed.data != [] && MissingColumns(parsed.data[0]) == []
    ensures result.Success? ==>
              && |result.data| == |parsed.data| == result.rowCount
              && (forall i :: 0 <= i < |parsed.data| ==> IsCleaned(parsed.data[i], result.data[i]))
              && result.columnCount == |parsed.data[0].Keys| + (if CustomerCategoryColumn in parsed.data[0] then 0 else 1)
  {
    if |parsed.errors| > 0 {
      return Failure([ValidationError(InvalidValue, "CSV解析失败", ErrorDetails(parsed.errors))]);
    }
    var data := parsed.data;
    if |data| == 0 {
      return Failure([ValidationError(EmptyData, "CSV文件为空", [])]);
    }
    var validationErrors := ValidateData(data);
    if |validationErrors| > 0 {
      return Failure(validationErrors);
    }
    NoMissingIff(data[0]);
    var cleanedData := CleanData(data);
    assert OrganizationColumn in RequiredColumns && BusinessTypeColumn in RequiredColumns;
    CleanedColumnCount(data[0], cleanedData[0]);
    result := Success(cleanedData, |cleanedData|, |cleanedData[0].Keys|);
  }

  /** The summary `getStatistics` returns. */
  datatype LoadStatistics = LoadStatistics(totalRows: nat, totalPremium: real, uniqueOrganizations: nat, uniqueBusinessTypes: nat)

  /**
   * `getStatistics`: all zeros for no rows; otherwise the row count, the
   * signed premium in yuan, and the numbers of distinct organisations and
   * business types.
   */
  function GetStatistics(data: seq<Row>): (stats: LoadStatistics)
    ensures |data| == 0 ==> stats == LoadStatistics(0, 0.0, 0, 0)
    ensures stats.totalRows == |data| && stats.totalPremium == SumBy(data, SignedOf)
    ensures stats.uniqueOrganizations == |KeySet(data, OrgOf)| && stats.uniqueBusinessTypes == |KeySet(data, BusinessTypeOf)|
    ensures stats.uniqueOrganizations <= stats.totalRows && stats.uniqueBusinessTypes <= stats.totalRows
    ensures stats.totalRows > 0 ==> stats.uniqueOrganizations > 0 && stats.uniqueBusinessTypes > 0
  {
    GroupCountIsDistinctKeys(data, OrgOf);
    GroupCountIsDistinctKeys(data, BusinessTypeOf);
    if |data| == 0 then LoadStatistics(0, 0.0, 0, 0)
    else LoadStatistics(|data|, SumBy(data, SignedOf), |KeySet(data, OrgOf)|, |KeySet(data, BusinessTypeOf)|)
  }

  /**
   * The summary agrees with the groupings the rest of the engine builds:
   * as many organisations as organisation groups, and rows, premium and
   * business types as the business-type tallies add up to (the special
   * case for no rows agrees too).
   */
  lemma StatisticsMatchGroupings(data: seq<Row>)
    ensures GetStatistics(data).uniqueOrganizations == |GroupBy(data, OrgOf)|
    ensures var tallies := BusinessMapping.TalliesOf(GroupBy(data, BusinessTypeOf));
            && GetStatistics(data).totalRows == BusinessMapping.CountSum(tallies)
            && GetStatistics(data).totalPremium == BusinessMapping.PremiumSum(tallies)
            && GetStatistics(data).uniqueBusinessTypes == |tallies|
  {
    GroupCountIsDistinctKeys(data, OrgOf);
    BusinessMapping.TalliesAddUp(data, BusinessTypeOf);
  }
}
