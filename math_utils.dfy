/**
 * Numeric helpers of the TypeScript engine (src/utils/math.ts).  Numbers are
 * exact reals; JavaScript's NaN and Infinity only appear where a value of
 * unknown type is coerced (`JsValue.NonFinite`).
 */
module MathUtils {
  import opened Wrappers

  /** Division that yields `default` instead of failing on a zero denominator. */
  function SafeDivide(numerator: real, denominator: real, default: real := 0.0): (r: real)
    ensures denominator == 0.0 ==> r == default
    ensures denominator != 0.0 ==> r * denominator == numerator
  {
    if denominator == 0.0 then default else numerator / denominator
  }

  /** Yuan to 万元 (ten thousand yuan). */
  function YuanToWan(yuan: real): (wan: real)
    ensures wan * 10000.0 == yuan
  {
    yuan / 10000.0
  }

  /** 万元 (ten thousand yuan) to yuan. */
  function WanToYuan(wan: real): (yuan: real)
    ensures yuan == 10000.0 * wan
  {
    wan * 10000.0
  }

  /** The two unit conversions undo each other. */
  lemma UnitRoundTrip(x: real)
    ensures WanToYuan(YuanToWan(x)) == x
    ensures YuanToWan(WanToYuan(x)) == x
  {
  }

  /** `Math.pow(10, n)`. */
  function Pow10(n: nat): (r: real)
    ensures r >= 1.0
  {
    if n == 0 then 1.0 else 10.0 * Pow10(n - 1)
  }

  predicate IsInteger(y: real) {
    y.Floor as real == y
  }

  /** `x` is a multiple of `10^-decimals`. */
  predicate OnGrid(x: real, decimals: nat) {
    IsInteger(Scale(x, decimals))
  }

  /** `x * 10^decimals`. */
  function Scale(x: real, decimals: nat): real {
    x * Pow10(decimals)
  }

  /** Scaling by a power of ten is injective. */
  lemma ScaleInjective(a: real, b: real, decimals: nat)
    requires Scale(a, decimals) == Scale(b, decimals)
    ensures a == b
  {
    MulCancel(a, b, Pow10(decimals));
  }

  /**
   * `Math.round(value * 10^d) / 10^d`: the nearest multiple of `10^-d`,
   * halves going up (towards +infinity, as `Math.round` does).
   */
  function Round(value: real, decimals: nat := 2): (r: real)
    ensures OnGrid(r, decimals)
    ensures InWindow(r, value, decimals)
  {
    var f := Pow10(decimals);
    var k := (value * f + 0.5).Floor;
    GridPoint(k, f);
    var r := k as real / f;
    assert r * f == k as real;
    assert (r * f).Floor == k;
    assert r * Pow10(decimals) == k as real;
    assert OnGrid(r, decimals);
    r
  }

  lemma DivMul(x: real, f: real)
    requires f > 0.0
    ensures (x / f) * f == x
  {
  }

  /** `k / f` scaled back by `f` is the integer `k`. */
  lemma GridPoint(k: int, f: real)
    requires f > 0.0
    ensures (k as real / f) * f == k as real
    ensures ((k as real / f) * f).Floor == k
  {
    DivMul(k as real, f);
    assert (k as real).Floor == k;
  }

  lemma MulCancel(a: real, b: real, f: real)
    requires f > 0.0 && a * f == b * f
    ensures a == b
  {
    assert (a - b) * f == 0.0;
  }

  /** Two integers in the same half-open window of width 1 are equal. */
  lemma GridWindowUnique(a: real, b: real, v: real)
    requires IsInteger(a) && IsInteger(b)
    requires a - 0.5 <= v < a + 0.5 && b - 0.5 <= v < b + 0.5
    ensures a == b
  {
    assert a.Floor - 1 < b.Floor < a.Floor + 1;
  }

  /** `value` lies in the half-open window of width `10^-decimals` centred on `r`. */
  predicate InWindow(r: real, value: real, decimals: nat) {
    Scale(r, decimals) - 0.5 <= Scale(value, decimals) < Scale(r, decimals) + 0.5
  }

  /** Two grid points whose windows share a value coincide. */
  lemma GridUnique(a: real, b: real, v: real, decimals: nat)
    requires OnGrid(a, decimals) && OnGrid(b, decimals)
    requires InWindow(a, v, decimals) && InWindow(b, v, decimals)
    ensures a == b
  {
    hide Scale;
    GridWindowUnique(Scale(a, decimals), Scale(b, decimals), Scale(v, decimals));
    ScaleInjective(a, b, decimals);
  }

  /** The grid point `Round` picks is the only one in its half-open window. */
  lemma RoundUnique(value: real, decimals: nat, r: real)
    requires OnGrid(r, decimals)
    requires InWindow(r, value, decimals)
    ensures r == Round(value, decimals)
  {
    var q := Round(value, decimals);
    assert OnGrid(q, decimals) && InWindow(q, value, decimals);
    hide *;
    GridUnique(r, q, value, decimals);
  }

  /** Rounding twice is rounding once. */
  lemma RoundIdempotent(value: real, decimals: nat)
    ensures Round(Round(value, decimals), decimals) == Round(value, decimals)
  {
    var r := Round(value, decimals);
    RoundUnique(r, decimals, r);
  }

  /** Rounding moves a value by at most half a unit of the last kept decimal. */
  lemma RoundError(value: real, decimals: nat)
    ensures -0.5 < (Round(value, decimals) - value) * Pow10(decimals) <= 0.5
  {
    var f := Pow10(decimals);
    var r := Round(value, decimals);
    assert (r - value) * f == r * f - value * f;
  }

  /** Rounding keeps a value that is already on the grid, in particular 0. */
  lemma RoundZero(decimals: nat)
    ensures Round(0.0, decimals) == 0.0
  {
    RoundUnique(0.0, decimals, 0.0);
  }

  /** `percentage`: part/total as a rounded percentage, 0 when the total is 0. */
  function Percentage(part: real, total: real, decimals: nat := 2): (r: real)
    ensures total == 0.0 ==> r == 0.0
    ensures total != 0.0 ==> r == Round(part / total * 100.0, decimals)
  {
    RoundZero(decimals);
    Round(SafeDivide(part, total) * 100.0, decimals)
  }

  /**
   * A JavaScript value of unknown type.  A string carries the reading
   * `Number(text)` gives it (None when that is NaN); text-to-number parsing
   * itself is not part of this model.
   */
  datatype JsValue =
    | JsNumber(n: real)
    | NonFinite
    | JsString(text: string, numeric: Option<real>)
    | JsBool(b: bool)
    | JsNull
    | JsUndefined

  /** `ensureNumber`: `Number(value)`, or `default` when that is NaN or infinite. */
  function EnsureNumber(value: JsValue, default: real := 0.0): (r: real)
    ensures value.JsNumber? ==> r == value.n
    ensures value.NonFinite? || value.JsUndefined? ==> r == default
    ensures value.JsString? ==> r == value.numeric.GetOr(default)
    ensures value.JsNull? ==> r == 0.0
    ensures value.JsBool? ==> r == if value.b then 1.0 else 0.0
  {
    match value
    case JsNumber(n) => n
    case NonFinite => default
    case JsString(_, numeric) => numeric.GetOr(default)
    case JsBool(b) => if b then 1.0 else 0.0
    case JsNull => 0.0
    case JsUndefined => default
  }

  /** `sum`: the total of a list of (finite) numbers, 0 for an empty list. */
  function Sum(numbers: seq<real>): (total: real)
    ensures numbers == [] ==> total == 0.0
    ensures |numbers| == 1 ==> total == numbers[0]
    ensures (forall i :: 0 <= i < |numbers| ==> numbers[i] >= 0.0) ==> total >= 0.0
    ensures (forall i :: 0 <= i < |numbers| ==> numbers[i] <= 0.0) ==> total <= 0.0
    decreases |numbers|
  {
    if numbers == [] then 0.0 else Sum(numbers[..|numbers| - 1]) + numbers[|numbers| - 1]
  }

  /** The sum of a concatenation is the sum of the sums. */
  lemma {:induction false} SumConcat(a: seq<real>, b: seq<real>)
    ensures Sum(a + b) == Sum(a) + Sum(b)
    decreases |b|
  {
    if b == [] {
      assert a + b == a;
    } else {
      var b' := b[..|b| - 1];
      assert (a + b)[..|a + b| - 1] == a + b';
      SumConcat(a, b');
    }
  }

  /** `average`: the mean of the list, 0 for an empty list. */
  function Average(numbers: seq<real>): (r: real)
    ensures |numbers| == 0 ==> r == 0.0
    ensures |numbers| > 0 ==> r * |numbers| as real == Sum(numbers)
  {
    if |numbers| == 0 then 0.0 else Sum(numbers) / |numbers| as real
  }
}
