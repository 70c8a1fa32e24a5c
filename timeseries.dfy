/**
 * The frontend's series reducer (frontend/src/helpers/timeseries.ts): min/max/average of a
 * series, downsampling by bucket means, and the null/NaN guard of number formatting.
 * Timestamps are reals because downsampling averages them.
 */
module Timeseries {
  import opened Wrappers
  import opened JsValues

  /** `TimePoint`: a timestamp in ms and a value. */
  datatype TimePoint = TimePoint(ts: real, value: real)

  /** `SeriesStats`. */
  datatype SeriesStats = SeriesStats(min: real, max: real, avg: real)

  /** `downsampleSeries`' default budget. */
  const DefaultMaxPoints: int := 240

  /** Which coordinate of a point a sum or a mean is taken over. */
  datatype Axis = TsAxis | ValueAxis

  function Coord(p: TimePoint, axis: Axis): real
  {
    match axis
    case TsAxis => p.ts
    case ValueAxis => p.value
  }

  /** The sum of one coordinate, added from the first point to the last. */
  function Sum(points: seq<TimePoint>, axis: Axis): real
  {
    if points == [] then 0.0 else Sum(points[..|points| - 1], axis) + Coord(points[|points| - 1], axis)
  }

  function Mean(points: seq<TimePoint>, axis: Axis): real
    requires |points| > 0
  {
    Sum(points, axis) / (|points| as real)
  }

  function Min(a: int, b: int): int
  {
    if a <= b then a else b
  }

  predicate Within(points: seq<TimePoint>, axis: Axis, lo: real, hi: real)
  {
    forall i :: 0 <= i < |points| ==> lo <= Coord(points[i], axis) <= hi
  }

  predicate SortedByTs(points: seq<TimePoint>)
  {
    forall i, j :: 0 <= i < j < |points| ==> points[i].ts <= points[j].ts
  }

  lemma {:induction false} SumBounds(points: seq<TimePoint>, axis: Axis, lo: real, hi: real)
    requires Within(points, axis, lo, hi)
    ensures (|points| as real) * lo <= Sum(points, axis) <= (|points| as real) * hi
    decreases |points|
  {
    if points != [] {
      var prefix := points[..|points| - 1];
      assert Within(prefix, axis, lo, hi) by {
        forall i | 0 <= i < |prefix| ensures prefix[i] == points[i] { }
      }
      SumBounds(prefix, axis, lo, hi);
      var m := |prefix| as real;
      var last := Coord(points[|points| - 1], axis);
      assert lo <= last <= hi;
      assert Sum(points, axis) == Sum(prefix, axis) + last;
      assert |points| as real == m + 1.0;
      assert (m + 1.0) * lo == m * lo + lo && (m + 1.0) * hi == m * hi + hi;
    }
  }

  /** A mean lies between any bounds of the values it averages. */
  lemma MeanBounds(points: seq<TimePoint>, axis: Axis, lo: real, hi: real)
    requires |points| > 0 && Within(points, axis, lo, hi)
    ensures lo <= Mean(points, axis) <= hi
  {
    SumBounds(points, axis, lo, hi);
    var n := |points| as real;
    var m := Mean(points, axis);
    assert m * n == Sum(points, axis);
  }

  // ---------------------------------------------------------------- computeStats

  /**
   * `computeStats`: nothing for an empty series; otherwise a minimum and a maximum that occur
   * in the series and bound every value, and the average of all values, which lies between them.
   */
  method ComputeStats(points: seq<TimePoint>) returns (stats: Option<SeriesStats>)
    ensures stats.None? <==> points == []
    ensures stats.Some? ==>
      && (exists i :: 0 <= i < |points| && points[i].value == stats.value.min)
      && (exists i :: 0 <= i < |points| && points[i].value == stats.value.max)
      && Within(points, ValueAxis, stats.value.min, stats.value.max)
      && stats.value.avg == Mean(points, ValueAxis)
      && stats.value.min <= stats.value.avg <= stats.value.max
  {
    if |points| == 0 {
      return None;
    }
    var min, max, sum := points[0].value, points[0].value, 0.0;
    ghost var minAt, maxAt := 0, 0;
    for i := 0 to |points|
      invariant 0 <= minAt < |points| && points[minAt].value == min
      invariant 0 <= maxAt < |points| && points[maxAt].value == max
      invariant forall k :: 0 <= k < i ==> min <= points[k].value <= max
      invariant sum == Sum(points[..i], ValueAxis)
    {
      assert points[..i + 1][..i] == points[..i];
      var v := points[i].value;
      if v < min {
        min, minAt := v, i;
      }
      if v > max {
        max, maxAt := v, i;
      }
      sum := sum + v;
    }
    assert points[..|points|] == points;
    MeanBounds(points, ValueAxis, min, max);
    stats := Some(SeriesStats(min, max, sum / (|points| as real)));
  }

  // ---------------------------------------------------------------- downsampleSeries

  /** `Math.ceil(n / maxPoints)` for whole numbers. */
  function BucketSize(n: nat, maxPoints: int): (b: nat)
    requires maxPoints >= 1
    ensures n > 0 ==> b >= 1
  {
    CeilDiv(n, maxPoints);
    (n + maxPoints - 1) / maxPoints
  }

  lemma CeilDiv(n: nat, d: int)
    requires d >= 1
    ensures var q := (n + d - 1) / d; (q - 1) * d < n <= q * d || (n == 0 && q == 0)
  {
    var q := (n + d - 1) / d;
    var r := (n + d - 1) % d;
    assert q * d + r == n + d - 1 && 0 <= r < d;
    assert (q - 1) * d == q * d - d;
  }

  /** The mean point of one bucket. */
  function BucketMean(bucket: seq<TimePoint>): TimePoint
    requires |bucket| > 0
  {
    TimePoint(Mean(bucket, TsAxis), Mean(bucket, ValueAxis))
  }

  /** Consecutive buckets of `size` points (the last one possibly shorter), each replaced by its mean. */
  function Buckets(points: seq<TimePoint>, size: nat): seq<TimePoint>
    requires size >= 1
    decreases |points|
  {
    if points == [] then []
    else
      var k := Min(size, |points|);
      [BucketMean(points[..k])] + Buckets(points[k..], size)
  }

  /** What `downsampleSeries` returns. */
  function Downsampled(points: seq<TimePoint>, maxPoints: int): seq<TimePoint>
    requires |points| <= maxPoints || maxPoints >= 1
  {
    if |points| <= maxPoints then points
    else Buckets(points, BucketSize(|points|, maxPoints))
  }

  /** The inner loop of `downsampleSeries`: running sums over one slice, then their means. */
  method SliceMean(slice: seq<TimePoint>) returns (p: TimePoint)
    requires |slice| > 0
    ensures p == BucketMean(slice)
  {
    var sumTs, sumVal := 0.0, 0.0;
    for j := 0 to |slice|
      invariant sumTs == Sum(slice[..j], TsAxis) && sumVal == Sum(slice[..j], ValueAxis)
    {
      assert slice[..j + 1][..j] == slice[..j];
      sumTs := sumTs + slice[j].ts;
      sumVal := sumVal + slice[j].value;
    }
    assert slice[..|slice|] == slice;
    p := TimePoint(sumTs / (|slice| as real), sumVal / (|slice| as real));
  }

  /** The buckets from position `i` on: the mean of the next slice, then the buckets after it. */
  lemma BucketsStep(points: seq<TimePoint>, i: nat, size: nat)
    requires size >= 1 && i < |points|
    ensures Buckets(points[i..], size) ==
      [BucketMean(points[i..Min(i + size, |points|)])] + Buckets(points[Min(i + size, |points|)..], size)
  {
    var rest := points[i..];
    var k := Min(size, |rest|);
    assert rest[..k] == points[i..Min(i + size, |points|)];
    assert rest[k..] == points[Min(i + size, |points|)..];
  }

  /** `downsampleSeries`: one mean point per slice of `bucketSize` points, in order. */
  method DownsampleSeries(points: seq<TimePoint>, maxPoints: int) returns (result: seq<TimePoint>)
    requires |points| <= maxPoints || maxPoints >= 1
    ensures result == Downsampled(points, maxPoints)
  {
    if |points| <= maxPoints {
      return points;
    }
    var n := |points|;
    var bucketSize := BucketSize(n, maxPoints);
    result := [];
    var i := 0;
    while i < n
      invariant 0 <= i
      invariant result + Buckets(points[Min(i, n)..], bucketSize) == Buckets(points, bucketSize)
      decreases n - i
    {
      var slice := points[i..Min(i + bucketSize, n)];
      if |slice| > 0 {
        var p := SliceMean(slice);
        BucketsStep(points, i, bucketSize);
        assert (result + [p]) + Buckets(points[Min(i + bucketSize, n)..], bucketSize)
            == result + ([p] + Buckets(points[Min(i + bucketSize, n)..], bucketSize));
        result := result + [p];
      }
      i := i + bucketSize;
    }
  }

  // ---------------------------------------------------------------- properties of the buckets

  /** The number of buckets: one per started run of `size` points. */
  function BucketCount(n: nat, size: nat): nat
    requires size >= 1
  {
    if n == 0 then 0 else 1 + BucketCount(n - Min(size, n), size)
  }

  /** `BucketCount` is `ceil(n / size)`. */
  lemma {:induction false} BucketCountIsCeil(n: nat, size: nat)
    requires size >= 1
    ensures var c := BucketCount(n, size); (c - 1) * size < n <= c * size || (n == 0 && c == 0)
    decreases n
  {
    if n > size {
      BucketCountIsCeil(n - size, size);
      var c := BucketCount(n - size, size);
      assert (c + 1) * size == c * size + size;
      assert c * size == (c - 1) * size + size;
    }
  }

  lemma {:induction false} BucketsLength(points: seq<TimePoint>, size: nat)
    requires size >= 1
    ensures |Buckets(points, size)| == BucketCount(|points|, size)
    decreases |points|
  {
    if points != [] {
      BucketsLength(points[Min(size, |points|)..], size);
    }
  }

  lemma MulMonotone(a: int, c: int, b: int)
    requires a <= c && b >= 0
    ensures a * b <= c * b
  {
    assert c * b - a * b == (c - a) * b;
  }

  /**
   * Downsampling keeps a series of at most `maxPoints` points as it is; otherwise it returns
   * `ceil(n / bucketSize)` points, never more than `maxPoints`.
   */
  lemma DownsampledLength(points: seq<TimePoint>, maxPoints: int)
    requires |points| <= maxPoints || maxPoints >= 1
    ensures |points| <= maxPoints ==> Downsampled(points, maxPoints) == points
    ensures |points| > maxPoints ==>
      var b := BucketSize(|points|, maxPoints);
      var c := |Downsampled(points, maxPoints)|;
      (c - 1) * b < |points| <= c * b && c <= maxPoints
  {
    var n := |points|;
    if n > maxPoints {
      var b := BucketSize(n, maxPoints);
      CeilDiv(n, maxPoints);
      BucketsLength(points, b);
      BucketCountIsCeil(n, b);
      var c := BucketCount(n, b);
      assert n <= b * maxPoints;
      if c > maxPoints {
        MulMonotone(maxPoints, c - 1, b);
      }
    }
  }

  /** Where bucket `k` starts and ends in the input. */
  function BucketStart(k: nat, size: nat): nat
  {
    k * size
  }

  function BucketEnd(n: nat, k: nat, size: nat): nat
  {
    Min(n, (k + 1) * size)
  }

  /** Output point `k` is the mean timestamp and mean value of input slice `[k·size, min(n, (k+1)·size))`. */
  lemma {:induction false} BucketAt(points: seq<TimePoint>, size: nat, k: nat)
    requires size >= 1 && k < |Buckets(points, size)|
    ensures BucketStart(k, size) < BucketEnd(|points|, k, size)
    ensures Buckets(points, size)[k] ==
            BucketMean(points[BucketStart(k, size)..BucketEnd(|points|, k, size)])
    decreases k
  {
    var n := |points|;
    var first := Min(size, n);
    if k > 0 {
      var rest := points[first..];
      assert Buckets(points, size) == [BucketMean(points[..first])] + Buckets(rest, size);
      BucketAt(rest, size, k - 1);
      assert first == size;
      var a := (k - 1) * size;
      var b := BucketEnd(|rest|, k - 1, size);
      assert a + size == k * size;
      assert k * size + size == (k + 1) * size;
      assert b + size == BucketEnd(n, k, size);
      assert rest[a..b] == points[a + size..b + size];
    }
  }

  /** Bucket `k` of `count = ceil(n / size)` buckets is non-empty and ends where bucket `k + 1` starts. */
  lemma BucketBounds(n: nat, size: nat, count: nat, k: nat)
    requires size >= 1 && (count - 1) * size < n <= count * size && k < count
    ensures BucketStart(k, size) < BucketEnd(n, k, size)
    ensures k < count - 1 ==> BucketEnd(n, k, size) == BucketStart(k + 1, size)
    ensures k == count - 1 ==> BucketEnd(n, k, size) == n
  {
    MulMonotone(k, count - 1, size);
    assert (k + 1) * size == k * size + size;
    if k < count - 1 {
      MulMonotone(k + 1, count - 1, size);
    }
  }

  /**
   * The bucket slices partition the input: the first starts at 0, each is non-empty, each
   * ends where the next starts, and the last ends at `n`.
   */
  lemma BucketsPartition(points: seq<TimePoint>, size: nat)
    requires size >= 1 && |points| > 0
    ensures var count := |Buckets(points, size)|;
      && count >= 1
      && BucketStart(0, size) == 0
      && (forall k :: 0 <= k < count ==> BucketStart(k, size) < BucketEnd(|points|, k, size))
      && (forall k :: 0 <= k < count - 1 ==> BucketEnd(|points|, k, size) == BucketStart(k + 1, size))
      && BucketEnd(|points|, count - 1, size) == |points|
  {
    var n := |points|;
    BucketsLength(points, size);
    BucketCountIsCeil(n, size);
    var count := BucketCount(n, size);
    forall k | 0 <= k < count
      ensures BucketStart(k, size) < BucketEnd(n, k, size)
      ensures k < count - 1 ==> BucketEnd(n, k, size) == BucketStart(k + 1, size)
    {
      BucketBounds(n, size, count, k);
    }
    BucketBounds(n, size, count, count - 1);
  }

  /** Each averaged value (and timestamp) lies between any bounds of its bucket's values. */
  lemma BucketWithin(points: seq<TimePoint>, size: nat, k: nat, axis: Axis, lo: real, hi: real)
    requires size >= 1 && k < |Buckets(points, size)|
    requires BucketStart(k, size) <= BucketEnd(|points|, k, size) <= |points|
    requires Within(points[BucketStart(k, size)..BucketEnd(|points|, k, size)], axis, lo, hi)
    ensures lo <= Coord(Buckets(points, size)[k], axis) <= hi
  {
    BucketAt(points, size, k);
    var bucket := points[BucketStart(k, size)..BucketEnd(|points|, k, size)];
    MeanBounds(bucket, axis, lo, hi);
    assert Coord(BucketMean(bucket), axis) == Mean(bucket, axis);
  }

  lemma {:induction false} BucketsSorted(points: seq<TimePoint>, size: nat)
    requires size >= 1 && SortedByTs(points)
    ensures SortedByTs(Buckets(points, size))
    decreases |points|
  {
    if points != [] {
      var k := Min(size, |points|);
      var head, rest := points[..k], points[k..];
      assert SortedByTs(rest) by {
        forall i, j | 0 <= i < j < |rest| ensures rest[i].ts <= rest[j].ts {
          assert rest[i] == points[k + i] && rest[j] == points[k + j];
        }
      }
      BucketsSorted(rest, size);
      var tail := Buckets(rest, size);
      if tail != [] {
        var hi := points[k - 1].ts;
        assert Within(head, TsAxis, head[0].ts, hi) by {
          forall i | 0 <= i < |head| ensures head[0].ts <= head[i].ts <= hi {
            assert head[i] == points[i];
          }
        }
        MeanBounds(head, TsAxis, head[0].ts, hi);
        var k2 := Min(size, |rest|);
        assert Within(rest[..k2], TsAxis, hi, rest[k2 - 1].ts) by {
          forall i | 0 <= i < k2 ensures hi <= rest[..k2][i].ts <= rest[k2 - 1].ts {
            assert rest[..k2][i] == points[k + i];
            assert rest[k2 - 1] == points[k + k2 - 1];
          }
        }
        MeanBounds(rest[..k2], TsAxis, hi, rest[k2 - 1].ts);
        assert BucketMean(head).ts <= tail[0].ts;
      }
      var all := Buckets(points, size);
      assert all == [BucketMean(head)] + tail;
      forall i, j | 0 <= i < j < |all| ensures all[i].ts <= all[j].ts {
        if i > 0 {
          assert all[i] == tail[i - 1] && all[j] == tail[j - 1];
        } else {
          assert all[j] == tail[j - 1];
          if j > 1 {
            assert tail[0].ts <= tail[j - 1].ts;
          }
        }
      }
    }
  }

  /** Downsampling a series in time order gives a series in time order. */
  lemma DownsampledSorted(points: seq<TimePoint>, maxPoints: int)
    requires |points| <= maxPoints || maxPoints >= 1
    requires SortedByTs(points)
    ensures SortedByTs(Downsampled(points, maxPoints))
  {
    if |points| > maxPoints {
      BucketsSorted(points, BucketSize(|points|, maxPoints));
    }
  }

  // ---------------------------------------------------------------- formatNumber

  /** `formatNumber`: a dash for null, undefined or NaN, otherwise `toFixed(digits)`. */
  function FormatNumber(value: JsValue, digits: nat, host: Host): (r: string)
    requires value.JNull? || value.JUndefined? || value.JNum?
    ensures value.JNull? || value.JUndefined? || value == JNum(NaN) ==> r == "—"
    ensures (forall n, d :: host.toFixed(n, d) != "—") ==>
      (r == "—" <==> value.JNull? || value.JUndefined? || value == JNum(NaN))
  {
    if value.JNull? || value.JUndefined? || value == JNum(NaN) then "—"
    else host.toFixed(value.n, digits)
  }
}
