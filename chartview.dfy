/**
 * The computations of the time-series chart component
 * (frontend/src/components/TimeSeriesChart.tsx): downsampling every series, the extents
 * over all points and the widening of a flat value range, the baseline, the scales and
 * ticks, the closest-point lookup and the hover payload. Drawing is not modelled.
 */
module TimeSeriesChart {
  import opened Wrappers
  import opened JsValues
  import opened Timeseries

  const SvgWidth: real := 800.0
  const SvgHeightDefault: real := 220.0
  const PaddingLeft: real := 60.0
  const PaddingRight: real := 10.0
  const PaddingTop: real := 20.0
  const PaddingBottom: real := 30.0

  /** `innerW`. */
  const InnerWidth: real := SvgWidth - PaddingLeft - PaddingRight

  const XTicks: nat := 6
  const YTicks: nat := 4

  /** `ChartSeries` (its `label` is `caption` here: `label` is a keyword). */
  datatype ChartSeries = ChartSeries(id: string, caption: string, points: seq<TimePoint>)

  /** The prepared chart: whether there is data, the downsampled series, the extents and the baseline. */
  datatype Prepared = Prepared(
    hasData: bool,
    ds: seq<ChartSeries>,
    minTs: real,
    maxTs: real,
    minVal: real,
    maxVal: real,
    baseline: Option<real>)

  /** The hover payload: the timestamp shown and one value (or null) per series id. */
  datatype Hover = Hover(ts: real, values: map<string, Option<real>>)

  // ---------------------------------------------------------------- closest point

  function Dist(p: TimePoint, target: real): real
  {
    Abs(p.ts - target)
  }

  /** The index the closest-point scan settles on: nearest to `target`, and the first such. */
  function FirstClosestIndex(points: seq<TimePoint>, target: real): (k: nat)
    requires |points| > 0
    ensures k < |points|
    ensures forall j :: 0 <= j < |points| ==> Dist(points[k], target) <= Dist(points[j], target)
    ensures forall j :: 0 <= j < k ==> Dist(points[j], target) > Dist(points[k], target)
  {
    if |points| == 1 then 0
    else
      var k := FirstClosestIndex(points[..|points| - 1], target);
      if Dist(points[|points| - 1], target) < Dist(points[k], target) then |points| - 1 else k
  }

  function Closest(points: seq<TimePoint>, target: real): Option<TimePoint>
  {
    if points == [] then None else Some(points[FirstClosestIndex(points, target)])
  }

  /** `findClosest`: null for no points, otherwise the first point at minimal distance. */
  method FindClosest(points: seq<TimePoint>, target: real) returns (r: Option<TimePoint>)
    ensures r == Closest(points, target)
  {
    if |points| == 0 {
      return None;
    }
    var best := points[0];
    var bestDiff := Abs(best.ts - target);
    ghost var bestAt := 0;
    for i := 0 to |points|
      invariant bestAt == FirstClosestIndex(points[..if i == 0 then 1 else i], target)
      invariant best == points[bestAt] && bestDiff == Dist(best, target)
    {
      assert i > 0 ==> points[..i + 1][..i] == points[..i];
      var diff := Abs(points[i].ts - target);
      if diff < bestDiff {
        best, bestDiff, bestAt := points[i], diff, i;
      }
    }
    assert points[..|points|] == points;
    r := Some(best);
  }

  /** Two probes against points at 10 and 20: 19 is nearer to 20; 15 is a tie and the first point wins. */
  lemma ClosestExamples()
    ensures Closest([TimePoint(10.0, 1.0), TimePoint(20.0, 2.0)], 19.0) == Some(TimePoint(20.0, 2.0))
    ensures Closest([TimePoint(10.0, 1.0), TimePoint(20.0, 2.0)], 15.0) == Some(TimePoint(10.0, 1.0))
  {
    var s := [TimePoint(10.0, 1.0), TimePoint(20.0, 2.0)];
    assert s[..1] == [TimePoint(10.0, 1.0)];
  }

  // ---------------------------------------------------------------- preparing the chart

  /** Every series with its points downsampled to the default budget; id and caption kept. */
  function DownsampleAll(series: seq<ChartSeries>): (ds: seq<ChartSeries>)
    ensures |ds| == |series|
    ensures forall i :: 0 <= i < |series| ==>
      ds[i] == series[i].(points := Downsampled(series[i].points, DefaultMaxPoints))
  {
    seq(|series|, i requires 0 <= i < |series| =>
      series[i].(points := Downsampled(series[i].points, DefaultMaxPoints)))
  }

  /** `dsSeries.flatMap((s) => s.points)`. */
  function AllPoints(ds: seq<ChartSeries>): seq<TimePoint>
  {
    if ds == [] then [] else AllPoints(ds[..|ds| - 1]) + ds[|ds| - 1].points
  }

  predicate HasPoints(ds: seq<ChartSeries>)
  {
    exists i :: 0 <= i < |ds| && ds[i].points != []
  }

  /** The flattened list holds exactly the series' points. */
  lemma {:induction false} AllPointsMembers(ds: seq<ChartSeries>)
    ensures forall i, j :: 0 <= i < |ds| && 0 <= j < |ds[i].points| ==> ds[i].points[j] in AllPoints(ds)
    ensures forall p :: p in AllPoints(ds) ==>
      exists i, j :: 0 <= i < |ds| && 0 <= j < |ds[i].points| && ds[i].points[j] == p
    ensures AllPoints(ds) == [] <==> !HasPoints(ds)
    decreases |ds|
  {
    if ds != [] {
      var prefix := ds[..|ds| - 1];
      AllPointsMembers(prefix);
      forall i, j | 0 <= i < |ds| && 0 <= j < |ds[i].points|
        ensures ds[i].points[j] in AllPoints(ds)
      {
        if i < |ds| - 1 {
          assert ds[i] == prefix[i];
        }
      }
      forall p | p in AllPoints(ds)
        ensures exists i, j :: 0 <= i < |ds| && 0 <= j < |ds[i].points| && ds[i].points[j] == p
      {
        if p in AllPoints(prefix) {
          var i, j :| 0 <= i < |prefix| && 0 <= j < |prefix[i].points| && prefix[i].points[j] == p;
          assert ds[i] == prefix[i];
        } else {
          var j :| 0 <= j < |ds[|ds| - 1].points| && ds[|ds| - 1].points[j] == p;
        }
      }
      if HasPoints(prefix) {
        var i :| 0 <= i < |prefix| && prefix[i].points != [];
        assert ds[i] == prefix[i];
      }
      if !HasPoints(prefix) && ds[|ds| - 1].points == [] {
        forall i | 0 <= i < |ds| ensures ds[i].points == [] {
          if i < |ds| - 1 {
            assert ds[i] == prefix[i];
          }
        }
      }
    }
  }

  /** Widening a flat value range: by 1 around values near zero, otherwise by a tenth of the value. */
  function Widen(lo: real, hi: real): (r: (real, real))
    ensures lo != hi ==> r == (lo, hi)
    ensures lo <= hi ==> r.0 <= lo && hi <= r.1 && r.0 < r.1
    ensures lo == hi ==> r.0 + r.1 == lo + hi
    ensures lo == hi && Abs(lo) < 0.1 ==> r.1 - r.0 == 2.0
    ensures lo == hi && Abs(lo) >= 0.1 ==> r.1 - r.0 == 0.2 * Abs(lo)
  {
    if lo == hi then
      var delta := if Abs(lo) < 0.1 then 1.0 else Abs(lo) * 0.1;
      (lo - delta, hi + delta)
    else (lo, hi)
  }

  /** The first series with the given id (`Array.find`). */
  function FindSeries(ds: seq<ChartSeries>, id: string): (r: Option<nat>)
    ensures r.Some? ==> r.value < |ds| && ds[r.value].id == id &&
                        forall j :: 0 <= j < r.value ==> ds[j].id != id
    ensures r.None? ==> forall j :: 0 <= j < |ds| ==> ds[j].id != id
  {
    if ds == [] then None
    else if ds[0].id == id then Some(0)
    else
      var r := FindSeries(ds[1..], id);
      if r.Some? then Some(r.value + 1) else None
  }

  /** The baseline: the mean value of the chosen series, or nothing when no id is chosen,
      no series has it, or that series has no points. */
  function Baseline(ds: seq<ChartSeries>, showBaselineForId: Option<string>): (b: Option<real>)
    ensures b.Some? ==>
      && showBaselineForId.Some? && showBaselineForId.value != ""
      && var i := FindSeries(ds, showBaselineForId.value);
         i.Some? && ds[i.value].points != [] && b.value == Mean(ds[i.value].points, ValueAxis)
    ensures showBaselineForId.Some? && showBaselineForId.value != "" ==>
      var i := FindSeries(ds, showBaselineForId.value);
      (i.Some? && ds[i.value].points != [] ==> b.Some?)
  {
    if showBaselineForId.None? || showBaselineForId.value == "" then None
    else
      var i := FindSeries(ds, showBaselineForId.value);
      if i.None? || ds[i.value].points == [] then None
      else Some(Sum(ds[i.value].points, ValueAxis) / (|ds[i.value].points| as real))
  }

  /** Every point of every series lies inside the box. */
  predicate Bounds(ds: seq<ChartSeries>, minTs: real, maxTs: real, minVal: real, maxVal: real)
  {
    forall i, j :: 0 <= i < |ds| && 0 <= j < |ds[i].points| ==>
      minTs <= ds[i].points[j].ts <= maxTs && minVal <= ds[i].points[j].value <= maxVal
  }

  /** The baseline lies within the value range of the chart. */
  lemma BaselineWithinRange(ds: seq<ChartSeries>, id: Option<string>, minTs: real, maxTs: real, minVal: real, maxVal: real)
    requires Bounds(ds, minTs, maxTs, minVal, maxVal)
    requires Baseline(ds, id).Some?
    ensures minVal <= Baseline(ds, id).value <= maxVal
  {
    var i := FindSeries(ds, id.value).value;
    MeanBounds(ds[i].points, ValueAxis, minVal, maxVal);
  }

  /** The extent loop of the preparation: the least and greatest timestamp and the least and
      greatest value over a non-empty list of points, each attained by some point. */
  method Extent(all: seq<TimePoint>) returns (minTs: real, maxTs: real, minVal: real, maxVal: real)
    requires |all| > 0
    ensures forall m :: 0 <= m < |all| ==>
      minTs <= all[m].ts <= maxTs && minVal <= all[m].value <= maxVal
    ensures exists m :: 0 <= m < |all| && all[m].ts == minTs
    ensures exists m :: 0 <= m < |all| && all[m].ts == maxTs
    ensures exists m :: 0 <= m < |all| && all[m].value == minVal
    ensures exists m :: 0 <= m < |all| && all[m].value == maxVal
  {
    minTs, maxTs := all[0].ts, all[0].ts;
    minVal, maxVal := all[0].value, all[0].value;
    ghost var minTsAt, maxTsAt, minValAt, maxValAt := 0, 0, 0, 0;
    for k := 0 to |all|
      invariant 0 <= minTsAt < |all| && all[minTsAt].ts == minTs
      invariant 0 <= maxTsAt < |all| && all[maxTsAt].ts == maxTs
      invariant 0 <= minValAt < |all| && all[minValAt].value == minVal
      invariant 0 <= maxValAt < |all| && all[maxValAt].value == maxVal
      invariant forall m :: 0 <= m < k ==>
        minTs <= all[m].ts <= maxTs && minVal <= all[m].value <= maxVal
    {
      var q := all[k];
      if q.ts < minTs {
        minTs, minTsAt := q.ts, k;
      }
      if q.ts > maxTs {
        maxTs, maxTsAt := q.ts, k;
      }
      if q.value < minVal {
        minVal, minValAt := q.value, k;
      }
      if q.value > maxVal {
        maxVal, maxValAt := q.value, k;
      }
    }
  }

  predicate Attained(ds: seq<ChartSeries>, ts: real)
  {
    exists i, j :: 0 <= i < |ds| && 0 <= j < |ds[i].points| && ds[i].points[j].ts == ts
  }

  predicate ValueAttained(ds: seq<ChartSeries>, v: real)
  {
    exists i, j :: 0 <= i < |ds| && 0 <= j < |ds[i].points| && ds[i].points[j].value == v
  }

  /** Extents over the flattened list are extents over the series. */
  lemma ExtentOfSeries(ds: seq<ChartSeries>, minTs: real, maxTs: real, minVal: real, maxVal: real)
    requires forall m :: 0 <= m < |AllPoints(ds)| ==>
      minTs <= AllPoints(ds)[m].ts <= maxTs && minVal <= AllPoints(ds)[m].value <= maxVal
    requires exists m :: 0 <= m < |AllPoints(ds)| && AllPoints(ds)[m].ts == minTs
    requires exists m :: 0 <= m < |AllPoints(ds)| && AllPoints(ds)[m].ts == maxTs
    requires exists m :: 0 <= m < |AllPoints(ds)| && AllPoints(ds)[m].value == minVal
    requires exists m :: 0 <= m < |AllPoints(ds)| && AllPoints(ds)[m].value == maxVal
    ensures Bounds(ds, minTs, maxTs, minVal, maxVal)
    ensures Attained(ds, minTs) && Attained(ds, maxTs)
    ensures ValueAttained(ds, minVal) && ValueAttained(ds, maxVal)
  {
    var all := AllPoints(ds);
    AllPointsMembers(ds);
    forall i, j | 0 <= i < |ds| && 0 <= j < |ds[i].points|
      ensures minTs <= ds[i].points[j].ts <= maxTs && minVal <= ds[i].points[j].value <= maxVal
    {
      var m :| 0 <= m < |all| && all[m] == ds[i].points[j];
    }
    var lo :| 0 <= lo < |all| && all[lo].ts == minTs;
    var hi :| 0 <= hi < |all| && all[hi].ts == maxTs;
    var vlo :| 0 <= vlo < |all| && all[vlo].value == minVal;
    var vhi :| 0 <= vhi < |all| && all[vhi].value == maxVal;
    assert all[lo] in all && all[hi] in all && all[vlo] in all && all[vhi] in all;
  }

  /** Widening keeps every point inside the value bounds. */
  lemma WidenKeepsBounds(ds: seq<ChartSeries>, minTs: real, maxTs: real, minVal: real, maxVal: real)
    requires Bounds(ds, minTs, maxTs, minVal, maxVal)
    requires minVal <= maxVal
    ensures Bounds(ds, minTs, maxTs, Widen(minVal, maxVal).0, Widen(minVal, maxVal).1)
  {
  }

  /**
   * The `useMemo` preparation: downsample every series; with no point at all, no data;
   * otherwise the extents of all points, each attained by some point, with the value range
   * being the lowest and highest value widened when they are equal, and the baseline.
   */
  method Prepare(series: seq<ChartSeries>, showBaselineForId: Option<string>) returns (p: Prepared)
    ensures p.ds == DownsampleAll(series)
    ensures p.hasData <==> HasPoints(p.ds)
    ensures !p.hasData ==> p.minTs == p.maxTs == p.minVal == p.maxVal == 0.0 && p.baseline == None
    ensures p.hasData ==>
      && Bounds(p.ds, p.minTs, p.maxTs, p.minVal, p.maxVal)
      && p.minVal < p.maxVal
      && Attained(p.ds, p.minTs) && Attained(p.ds, p.maxTs)
      && (exists lo, hi :: && ValueAttained(p.ds, lo) && ValueAttained(p.ds, hi)
                           && Bounds(p.ds, p.minTs, p.maxTs, lo, hi)
                           && (p.minVal, p.maxVal) == Widen(lo, hi))
      && p.baseline == Baseline(p.ds, showBaselineForId)
      && (p.baseline.Some? ==> p.minVal <= p.baseline.value <= p.maxVal)
  {
    var ds := DownsampleAll(series);
    var all := AllPoints(ds);
    AllPointsMembers(ds);
    if |all| == 0 {
      return Prepared(false, ds, 0.0, 0.0, 0.0, 0.0, None);
    }
    var minTs, maxTs, minVal, maxVal := Extent(all);
    ExtentOfSeries(ds, minTs, maxTs, minVal, maxVal);
    assert minVal <= all[0].value <= maxVal;
    WidenKeepsBounds(ds, minTs, maxTs, minVal, maxVal);
    var widened := Widen(minVal, maxVal);
    var baseline := Baseline(ds, showBaselineForId);
    if baseline.Some? {
      BaselineWithinRange(ds, showBaselineForId, minTs, maxTs, widened.0, widened.1);
    }
    p := Prepared(true, ds, minTs, maxTs, widened.0, widened.1, baseline);
  }

  // ---------------------------------------------------------------- scales and ticks

  /** `maxTs - minTs || 1`: a zero span is replaced by 1. */
  function SpanOrOne(d: real): (r: real)
    ensures r != 0.0
    ensures d != 0.0 ==> r == d
  {
    if d == 0.0 then 1.0 else d
  }

  function XScale(ts: real, minTs: real, tsRange: real): real
    requires tsRange != 0.0
  {
    PaddingLeft + ((ts - minTs) / tsRange) * InnerWidth
  }

  function YScale(v: real, minVal: real, valRange: real, innerHeight: real): real
    requires valRange != 0.0
  {
    PaddingTop + (1.0 - (v - minVal) / valRange) * innerHeight
  }

  lemma RatioInUnit(x: real, lo: real, hi: real)
    requires lo <= x <= hi
    ensures 0.0 <= (x - lo) / SpanOrOne(hi - lo) <= 1.0
  {
    var span := SpanOrOne(hi - lo);
    if hi == lo {
      assert x - lo == 0.0 && span == 1.0;
    } else {
      assert span == hi - lo && span > 0.0;
      var r := (x - lo) / span;
      assert r * span == x - lo;
      assert 0.0 <= x - lo <= span;
    }
  }

  /**
   * The scales map the box onto the plotting area: a timestamp between the extents lands
   * between the left and right padding, and a value between the extents lands between the
   * top and bottom padding (for a chart at least as tall as its paddings).
   */
  lemma ScalesInPlotArea(ts: real, v: real, minTs: real, maxTs: real, minVal: real, maxVal: real, height: real)
    requires minTs <= ts <= maxTs && minVal <= v <= maxVal
    requires height >= PaddingTop + PaddingBottom
    ensures var x := XScale(ts, minTs, SpanOrOne(maxTs - minTs));
      PaddingLeft <= x <= PaddingLeft + InnerWidth
    ensures var innerHeight := height - PaddingTop - PaddingBottom;
      var y := YScale(v, minVal, SpanOrOne(maxVal - minVal), innerHeight);
      PaddingTop <= y <= PaddingTop + innerHeight
  {
    RatioInUnit(ts, minTs, maxTs);
    RatioInUnit(v, minVal, maxVal);
    var innerHeight := height - PaddingTop - PaddingBottom;
    var ry := (v - minVal) / SpanOrOne(maxVal - minVal);
    assert 0.0 <= (1.0 - ry) * innerHeight <= innerHeight;
  }

  /** Tick `i` of `count`: `start + (span * i) / count`. */
  function TickValue(start: real, span: real, i: nat, count: nat): real
    requires count >= 1
  {
    start + (span * (i as real)) / (count as real)
  }

  /** The ticks run from the start to the end of the span. */
  lemma TickEnds(start: real, span: real, count: nat)
    requires count >= 1
    ensures TickValue(start, span, 0, count) == start
    ensures TickValue(start, span, count, count) == start + span
  {
    var c := count as real;
    assert (span * c) / c == span;
  }

  /** Consecutive ticks are `span / count` apart. */
  lemma TickStep(start: real, span: real, i: nat, count: nat)
    requires count >= 1
    ensures TickValue(start, span, i + 1, count) - TickValue(start, span, i, count) == span / (count as real)
  {
    var c := count as real;
    assert span * ((i + 1) as real) == span * (i as real) + span;
    assert (span * (i as real) + span) / c == (span * (i as real)) / c + span / c;
  }

  /** The tick loops: `count + 1` evenly spaced values from `start` to `start + span`. */
  method Ticks(start: real, span: real, count: nat) returns (ticks: seq<real>)
    requires count >= 1
    ensures |ticks| == count + 1
    ensures ticks[0] == start && ticks[count] == start + span
    ensures forall i :: 0 <= i < count ==> ticks[i + 1] - ticks[i] == span / (count as real)
    ensures span > 0.0 ==> forall i :: 0 <= i < count ==> ticks[i] < ticks[i + 1]
  {
    ticks := [];
    for i := 0 to count + 1
      invariant |ticks| == i
      invariant forall k :: 0 <= k < i ==> ticks[k] == TickValue(start, span, k, count)
    {
      ticks := ticks + [start + (span * (i as real)) / (count as real)];
    }
    TickEnds(start, span, count);
    forall i | 0 <= i < count ensures ticks[i + 1] - ticks[i] == span / (count as real) {
      TickStep(start, span, i, count);
    }
    if span > 0.0 {
      assert span / (count as real) > 0.0;
    }
  }

  // ---------------------------------------------------------------- hover

  /** The index of the first series with points (`|ds|` when none has any). */
  function FirstNonEmpty(ds: seq<ChartSeries>): (k: nat)
    ensures k <= |ds|
    ensures forall j :: 0 <= j < k ==> ds[j].points == []
    ensures k < |ds| ==> ds[k].points != []
  {
    if ds == [] then 0
    else if ds[0].points != [] then 0
    else 1 + FirstNonEmpty(ds[1..])
  }

  function ClosestValue(points: seq<TimePoint>, target: real): Option<real>
  {
    if points == [] then None else Some(points[FirstClosestIndex(points, target)].value)
  }

  /** `targetTs` for a mouse position inside the plot. */
  function TargetTs(minTs: real, tsRange: real, relativeX: real): real
  {
    minTs + tsRange * (relativeX / InnerWidth)
  }

  /** The first series with points, once found, is the one `FirstNonEmpty` names. */
  lemma FirstNonEmptyAt(ds: seq<ChartSeries>, i: nat)
    requires i < |ds| && ds[i].points != []
    requires forall j :: 0 <= j < i ==> ds[j].points == []
    ensures FirstNonEmpty(ds) == i
  {
  }

  /** No later series among the first `n` shares series `i`'s id. */
  predicate LastWithId(ds: seq<ChartSeries>, i: nat, n: nat)
    requires i < n <= |ds|
  {
    forall j :: i < j < n ==> ds[j].id != ds[i].id
  }

  /** The values map after the first `n` series: their ids, each with the value of the last
      series carrying it. */
  predicate ValuesUpTo(ds: seq<ChartSeries>, values: map<string, Option<real>>, target: real, n: nat)
    requires n <= |ds|
  {
    && values.Keys == (set j | 0 <= j < n :: ds[j].id)
    && forall i :: 0 <= i < n && LastWithId(ds, i, n) ==> values[ds[i].id] == ClosestValue(ds[i].points, target)
  }

  /** The ids of the first `n + 1` series: those of the first `n`, and one more. */
  lemma IdsStep(ds: seq<ChartSeries>, n: nat)
    requires n < |ds|
    ensures (set j | 0 <= j < n + 1 :: ds[j].id) == (set j | 0 <= j < n :: ds[j].id) + {ds[n].id}
  {
    var left := set j | 0 <= j < n + 1 :: ds[j].id;
    var before := set j | 0 <= j < n :: ds[j].id;
    forall x | x in left ensures x in before + {ds[n].id} {
      var j :| 0 <= j < n + 1 && ds[j].id == x;
      if j < n {
        assert x in before;
      }
    }
    forall x | x in before ensures x in left {
      var j :| 0 <= j < n && ds[j].id == x;
      assert x in left;
    }
    assert ds[n].id in left;
  }

  lemma ValuesStep(ds: seq<ChartSeries>, values: map<string, Option<real>>, target: real, n: nat)
    requires n < |ds|
    requires ValuesUpTo(ds, values, target, n)
    ensures ValuesUpTo(ds, values[ds[n].id := ClosestValue(ds[n].points, target)], target, n + 1)
  {
    var v := ClosestValue(ds[n].points, target);
    var next := values[ds[n].id := v];
    IdsStep(ds, n);
    forall i | 0 <= i < n + 1 && LastWithId(ds, i, n + 1)
      ensures next[ds[i].id] == ClosestValue(ds[i].points, target)
    {
      if i < n {
        assert LastWithId(ds, i, n);
        assert ds[i].id != ds[n].id;
      }
    }
  }

  /**
   * `handleMouseMove`: outside the plot, nothing. Inside, each series id gets the value of its
   * closest point (null for an empty series; for a repeated id, the last such series wins),
   * and the payload's timestamp is that of the closest point of the first series with points;
   * with no point in any series there is no payload.
   */
  method HoverAt(ds: seq<ChartSeries>, minTs: real, tsRange: real, relativeX: real) returns (payload: Option<Hover>)
    ensures relativeX < 0.0 || relativeX > InnerWidth ==> payload == None
    ensures 0.0 <= relativeX <= InnerWidth ==>
      var target := TargetTs(minTs, tsRange, relativeX);
      && (payload.None? <==> FirstNonEmpty(ds) == |ds|)
      && (payload.Some? ==>
            var k := FirstNonEmpty(ds);
            && k < |ds|
            && payload.value.ts == ds[k].points[FirstClosestIndex(ds[k].points, target)].ts
            && ValuesUpTo(ds, payload.value.values, target, |ds|))
  {
    if relativeX < 0.0 || relativeX > InnerWidth {
      return None;
    }
    var target := TargetTs(minTs, tsRange, relativeX);
    var values: map<string, Option<real>> := map[];
    var primaryTs: Option<real> := None;
    for i := 0 to |ds|
      invariant ValuesUpTo(ds, values, target, i)
      invariant primaryTs.None? <==> FirstNonEmpty(ds) >= i
      invariant primaryTs.Some? ==>
        var k := FirstNonEmpty(ds);
        k < |ds| && primaryTs.value == ds[k].points[FirstClosestIndex(ds[k].points, target)].ts
    {
      var closest := FindClosest(ds[i].points, target);
      ValuesStep(ds, values, target, i);
      if closest.Some? {
        values := values[ds[i].id := Some(closest.value.value)];
        if primaryTs.None? {
          FirstNonEmptyAt(ds, i);
          primaryTs := Some(closest.value.ts);
        }
      } else {
        values := values[ds[i].id := None];
      }
    }
    if primaryTs.None? {
      return None;
    }
    payload := Some(Hover(primaryTs.value, values));
  }
}
