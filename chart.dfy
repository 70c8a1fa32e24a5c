/**
 * The frontend's chart helpers (frontend/src/helpers/chart.ts): the strict number check,
 * the bounded point buffer, the precision choice of value formatting, and the hPa to
 * mmHg conversion.
 */
module ChartHelpers {
  import opened Wrappers
  import opened JsValues
  import Helpers

  /** `LinePoint`: a timestamp and a value that may be null. */
  datatype LinePoint = LinePoint(ts: real, value: Option<real>)

  /** `MAX_POINTS`. */
  const MaxPoints: int := 200

  /** `toNumberOrNull`: only a finite number is kept; strings are not coerced. */
  function ToNumberOrNull(value: JsValue): (r: Option<real>)
    ensures r.Some? <==> value.JNum? && value.n.Finite?
    ensures r.Some? ==> value == JNum(Finite(r.value))
  {
    if !value.JNum? then None
    else if !value.n.Finite? then None
    else Some(value.n.value)
  }

  /** The strict check is stricter than the backend's `toNumber`: whatever it accepts, `toNumber`
      accepts with the same value, and it refuses every string, numeric or not. */
  lemma StricterThanToNumber(value: JsValue, host: Host)
    ensures ToNumberOrNull(value).Some? ==> Helpers.ToNumber(value, host) == ToNumberOrNull(value)
    ensures value.JStr? ==> ToNumberOrNull(value) == None
  {
  }

  /**
   * `appendPoint`: a new list (the input is a value and stays as it was) that ends with the
   * point; the front element is dropped when the list would exceed `maxPoints`.
   */
  function AppendPoint(list: seq<LinePoint>, point: LinePoint, maxPoints: int): (r: seq<LinePoint>)
    ensures |list| + 1 <= maxPoints ==> r == list + [point]
    ensures |list| + 1 > maxPoints && list != [] ==> r == list[1..] + [point]
    ensures list != [] || maxPoints >= 1 ==> r != [] && r[|r| - 1] == point
    ensures |list| <= maxPoints && maxPoints >= 0 ==> |r| <= maxPoints
  {
    var next := list + [point];
    if |next| > maxPoints then next[1..] else next
  }

  /** The last `m` elements of `s` (all of them when there are fewer). */
  function LastN(s: seq<LinePoint>, m: nat): (r: seq<LinePoint>)
  {
    if |s| <= m then s else s[|s| - m..]
  }

  /** Appending the points one by one, as the series hook does for each reading. */
  function AppendAll(list: seq<LinePoint>, points: seq<LinePoint>, maxPoints: int): seq<LinePoint>
    decreases |points|
  {
    if points == [] then list
    else AppendAll(AppendPoint(list, points[0], maxPoints), points[1..], maxPoints)
  }

  lemma AppendToWindow(s: seq<LinePoint>, p: LinePoint, m: nat)
    requires m >= 1
    ensures AppendPoint(LastN(s, m), p, m) == LastN(s + [p], m)
  {
    if |s| >= m {
      assert LastN(s, m)[1..] + [p] == (s + [p])[|s| + 1 - m..];
    }
  }

  /**
   * The buffer is a sliding window: starting from a list of at most `maxPoints` points,
   * appending any sequence of points leaves exactly the last `maxPoints` of everything appended.
   */
  lemma {:induction false} AppendAllIsWindow(list: seq<LinePoint>, points: seq<LinePoint>, maxPoints: nat)
    requires maxPoints >= 1 && |list| <= maxPoints
    ensures AppendAll(list, points, maxPoints) == LastN(list + points, maxPoints)
    decreases |points|
  {
    assert LastN(list, maxPoints) == list;
    AppendAllIsWindowFrom(list, points, maxPoints);
  }

  lemma {:induction false} AppendAllIsWindowFrom(s: seq<LinePoint>, points: seq<LinePoint>, maxPoints: nat)
    requires maxPoints >= 1
    ensures AppendAll(LastN(s, maxPoints), points, maxPoints) == LastN(s + points, maxPoints)
    decreases |points|
  {
    if points == [] {
      assert s + points == s;
    } else {
      AppendToWindow(s, points[0], maxPoints);
      AppendAllIsWindowFrom(s + [points[0]], points[1..], maxPoints);
      SplitFirst(s, points);
    }
  }

  /** Moving the first appended point onto the prefix leaves the whole stream unchanged. */
  lemma SplitFirst(s: seq<LinePoint>, points: seq<LinePoint>)
    requires points != []
    ensures (s + [points[0]]) + points[1..] == s + points
  {
    assert points == [points[0]] + points[1..];
  }

  /** The number of decimals `formatValue` chooses: 0 from 100 up, 1 from 10 up, else 2
      (NaN fails both comparisons; an infinity passes both). */
  function Decimals(v: JsNumber): (d: nat)
    ensures d <= 2
    ensures v.Finite? ==> (d == 0 <==> Abs(v.value) >= 100.0)
    ensures v.Finite? ==> (d == 1 <==> 10.0 <= Abs(v.value) < 100.0)
    ensures v.Finite? ==> (d == 2 <==> Abs(v.value) < 10.0)
  {
    match v
    case Finite(x) => if Abs(x) >= 100.0 then 0 else if Abs(x) >= 10.0 then 1 else 2
    case NaN => 2
    case Infinity(_) => 0
  }

  /** Larger magnitudes never get more decimals. */
  lemma DecimalsMonotone(x: real, y: real)
    requires Abs(x) <= Abs(y)
    ensures Decimals(Finite(y)) <= Decimals(Finite(x))
  {
  }

  /**
   * `formatValue`: a dash for null; otherwise the number at the chosen precision, followed
   * by a space and the unit only when a non-empty unit is given.
   */
  function FormatValue(v: Option<JsNumber>, unit: Option<string>, host: Host): (r: string)
    ensures v.None? ==> r == "—"
    ensures v.Some? && (unit.None? || unit == Some("")) ==> r == host.toFixed(v.value, Decimals(v.value))
    ensures v.Some? && unit.Some? && unit.value != "" ==>
      r == host.toFixed(v.value, Decimals(v.value)) + " " + unit.value
  {
    if v.None? then "—"
    else
      var fixed := host.toFixed(v.value, Decimals(v.value));
      if unit.Some? && unit.value != "" then fixed + " " + unit.value else fixed
  }

  /** `hPaToMmHg`: null stays null, a value is scaled by 0.75006. */
  function HPaToMmHg(v: Option<real>): (r: Option<real>)
    ensures r.Some? <==> v.Some?
    ensures v.Some? ==> r.value == v.value * 0.75006
  {
    if v.None? then None else Some(v.value * 0.75006)
  }

  /** The conversion preserves the order of readings and maps 0 hPa to 0 mmHg. */
  lemma HPaToMmHgMonotone(x: real, y: real)
    requires x <= y
    ensures HPaToMmHg(Some(x)).value <= HPaToMmHg(Some(y)).value
    ensures HPaToMmHg(Some(0.0)) == Some(0.0)
  {
  }
}
