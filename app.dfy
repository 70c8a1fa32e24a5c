/**
 * The dashboard's live state (frontend/src/App.tsx): six per-metric series fed by the
 * WebSocket messages, trimmed to the last twelve hours, the latest live values, and the
 * window filter for the selected time range. A series point keeps the JavaScript number
 * it was given, because the append guard lets the infinities through.
 */
module App {
  import opened Wrappers
  import opened JsValues

  /** `MetricKey`: the six metrics the dashboard charts (no `bmp_qnh`). */
  datatype MetricKey = AhtT | AhtH | BmpT | BmpP | Mq135 | Mq3

  /** `METRIC_KEYS`, in order. */
  const MetricKeys: seq<MetricKey> := [AhtT, AhtH, BmpT, BmpP, Mq135, Mq3]

  /** The property name of a metric in the message payload. */
  function KeyName(k: MetricKey): string
  {
    match k
    case AhtT => "aht_t"
    case AhtH => "aht_h"
    case BmpT => "bmp_t"
    case BmpP => "bmp_p"
    case Mq135 => "mq135"
    case Mq3 => "mq3"
  }

  /** Where a key sits in `METRIC_KEYS`: every key is listed. */
  function KeyIndex(k: MetricKey): (i: nat)
    ensures i < |MetricKeys| && MetricKeys[i] == k
  {
    match k
    case AhtT => 0
    case AhtH => 1
    case BmpT => 2
    case BmpP => 3
    case Mq135 => 4
    case Mq3 => 5
  }

  /** `MAX_RANGE_MS`: twelve hours. */
  const MaxRangeMs: int := 12 * 60 * 60 * 1000

  /** A point of a dashboard series: a millisecond timestamp and the number received. */
  datatype SeriesPoint = SeriesPoint(ts: int, value: JsNumber)

  /** `MetricSeriesMap`. */
  type SeriesMap = map<MetricKey, seq<SeriesPoint>>

  /** Every metric key is present. */
  predicate Complete(m: SeriesMap)
  {
    forall k: MetricKey :: k in m
  }

  /** `createEmptySeries`: all six keys, each with no point. */
  function CreateEmptySeries(): (m: SeriesMap)
    ensures Complete(m)
    ensures forall k :: k in m ==> m[k] == []
  {
    var m := map[AhtT := [], AhtH := [], BmpT := [], BmpP := [], Mq135 := [], Mq3 := []];
    assert forall k: MetricKey :: k in m by {
      forall k: MetricKey ensures k in m {
        assert MetricKeys[KeyIndex(k)] == k;
      }
    }
    m
  }

  // ---------------------------------------------------------------- filtering by time

  /** `points.filter((p) => p.ts >= cutoff)`. */
  function Since(points: seq<SeriesPoint>, cutoff: int): seq<SeriesPoint>
  {
    if points == [] then []
    else
      var last := points[|points| - 1];
      Since(points[..|points| - 1], cutoff) + (if last.ts >= cutoff then [last] else [])
  }

  /** The filter keeps exactly the points at or after the cutoff. */
  lemma {:induction false} SinceMembers(points: seq<SeriesPoint>, cutoff: int)
    ensures forall p :: p in Since(points, cutoff) <==> p in points && p.ts >= cutoff
  {
    if points != [] {
      var prefix := points[..|points| - 1];
      SinceMembers(prefix, cutoff);
      assert points == prefix + [points[|points| - 1]];
    }
  }

  /** The filter distributes over concatenation, so it keeps the points' order. */
  lemma {:induction false} SinceAppend(a: seq<SeriesPoint>, b: seq<SeriesPoint>, cutoff: int)
    ensures Since(a + b, cutoff) == Since(a, cutoff) + Since(b, cutoff)
    decreases |b|
  {
    if b == [] {
      assert a + b == a;
    } else {
      var b' := b[..|b| - 1];
      assert (a + b)[..|a + b| - 1] == a + b';
      SinceAppend(a, b', cutoff);
    }
  }

  /** Nothing is dropped when every point is recent enough. */
  lemma {:induction false} SinceKeepsRecent(points: seq<SeriesPoint>, cutoff: int)
    requires forall i :: 0 <= i < |points| ==> points[i].ts >= cutoff
    ensures Since(points, cutoff) == points
  {
    if points != [] {
      SinceKeepsRecent(points[..|points| - 1], cutoff);
    }
  }

  /** Filtering twice is filtering once with the later cutoff. */
  lemma {:induction false} SinceTwice(points: seq<SeriesPoint>, c1: int, c2: int)
    ensures Since(Since(points, c1), c2) == Since(points, if c1 < c2 then c2 else c1)
  {
    if points != [] {
      var prefix := points[..|points| - 1];
      var last := points[|points| - 1];
      SinceTwice(prefix, c1, c2);
      SinceAppend(Since(prefix, c1), if last.ts >= c1 then [last] else [], c2);
    }
  }

  // ---------------------------------------------------------------- retention trim

  /** The retention trim as a value: every series cut at twelve hours before `now`. */
  function Clamped(series: SeriesMap, now: int): (m: SeriesMap)
    requires Complete(series)
    ensures Complete(m)
  {
    map k: MetricKey | k in series :: Since(series[k], now - MaxRangeMs)
  }

  /** `clampSeries`: a fresh map with all six keys, each the input series cut at the cutoff. */
  method ClampSeries(series: SeriesMap, now: int) returns (next: SeriesMap)
    requires Complete(series)
    ensures Complete(next)
    ensures forall k: MetricKey :: next[k] == Since(series[k], now - MaxRangeMs)
    ensures next == Clamped(series, now)
  {
    var cutoff := now - MaxRangeMs;
    next := CreateEmptySeries();
    for i := 0 to |MetricKeys|
      invariant Complete(next)
      invariant forall j :: 0 <= j < i ==> next[MetricKeys[j]] == Since(series[MetricKeys[j]], cutoff)
    {
      var key := MetricKeys[i];
      next := next[key := Since(series[key], cutoff)];
    }
    forall k: MetricKey ensures next[k] == Since(series[k], cutoff) {
      assert MetricKeys[KeyIndex(k)] == k;
    }
  }

  /** The trim keeps, per metric, exactly the points of the last twelve hours, in order. */
  lemma ClampKeepsLastTwelveHours(series: SeriesMap, now: int, k: MetricKey)
    requires Complete(series)
    ensures forall p :: p in Clamped(series, now)[k] <==> p in series[k] && p.ts >= now - MaxRangeMs
  {
    SinceMembers(series[k], now - MaxRangeMs);
  }

  // ---------------------------------------------------------------- one message

  /** `typeof value === 'number' && !Number.isNaN(value)`: infinities pass. */
  predicate Appendable(v: JsValue)
  {
    v.JNum? && !v.n.NaN?
  }

  /** The point a message adds to one metric's series: one point at `t`, or none. */
  function NewPoints(props: map<string, JsValue>, k: MetricKey, t: int): (r: seq<SeriesPoint>)
    ensures |r| <= 1
    ensures r != [] <==> Appendable(Prop(props, KeyName(k)))
    ensures r != [] ==> r[0] == SeriesPoint(t, Prop(props, KeyName(k)).n)
  {
    var v := Prop(props, KeyName(k));
    if Appendable(v) then [SeriesPoint(t, v.n)] else []
  }

  /** The `updated` map after the six `addPoint` calls. */
  function Appended(prev: SeriesMap, props: map<string, JsValue>, t: int): (m: SeriesMap)
    requires Complete(prev)
    ensures Complete(m)
  {
    map k: MetricKey | k in prev :: prev[k] + NewPoints(props, k, t)
  }

  /** `addPoint` for one key: push that metric's new point, if any, onto its series. */
  function AddPoint(updated: SeriesMap, props: map<string, JsValue>, key: MetricKey, t: int): SeriesMap
    requires key in updated
  {
    updated[key := updated[key] + NewPoints(props, key, t)]
  }

  /** The six `addPoint` calls build `Appended`. */
  lemma AddPointsAppend(prev: SeriesMap, props: map<string, JsValue>, t: int)
    requires Complete(prev)
    ensures
      var u := AddPoint(prev, props, AhtT, t);
      var u := AddPoint(u, props, AhtH, t);
      var u := AddPoint(u, props, BmpT, t);
      var u := AddPoint(u, props, BmpP, t);
      var u := AddPoint(u, props, Mq135, t);
      AddPoint(u, props, Mq3, t) == Appended(prev, props, t)
  {
    var u := AddPoint(prev, props, AhtT, t);
    u := AddPoint(u, props, AhtH, t);
    u := AddPoint(u, props, BmpT, t);
    u := AddPoint(u, props, BmpP, t);
    u := AddPoint(u, props, Mq135, t);
    u := AddPoint(u, props, Mq3, t);
    var m := Appended(prev, props, t);
    forall k: MetricKey ensures u[k] == m[k] {
      match k
      case AhtT =>
      case AhtH =>
      case BmpT =>
      case BmpP =>
      case Mq135 =>
      case Mq3 =>
    }
    assert u.Keys == m.Keys;
  }

  /** The message timestamp: the parsed `ts` when it is truthy and parses, otherwise `now`. */
  function MessageTime(props: map<string, JsValue>, now: int, host: Host): (t: int)
    ensures t != now ==> Truthy(Prop(props, "ts")) && host.timeValue(Prop(props, "ts")) == Some(t)
    ensures Truthy(Prop(props, "ts")) && host.timeValue(Prop(props, "ts")).Some? ==>
      t == host.timeValue(Prop(props, "ts")).value
  {
    var ts := Prop(props, "ts");
    if Truthy(ts) && host.timeValue(ts).Some? then host.timeValue(ts).value else now
  }

  /**
   * The message timestamp as written: a truthy `ts` is parsed whether or not it parses, so an
   * unparsable one gives NaN (`None` here); only a falsy `ts` falls back to `now`.
   */
  function MessageTimeAsWritten(props: map<string, JsValue>, now: int, host: Host): (t: Option<int>)
    ensures !Truthy(Prop(props, "ts")) ==> t == Some(now)
    ensures Truthy(Prop(props, "ts")) ==> t == host.timeValue(Prop(props, "ts"))
  {
    var ts := Prop(props, "ts");
    if Truthy(ts) then host.timeValue(ts) else Some(now)
  }

  /**
   * The series after one message as written. With a NaN timestamp the cutoff is NaN, every
   * `p.ts >= cutoff` is false, and the trim empties every series, the new points included.
   */
  function SeriesAfterAsWritten(prev: SeriesMap, props: map<string, JsValue>, now: int, host: Host): (m: SeriesMap)
    requires Complete(prev)
    ensures Complete(m)
  {
    match MessageTimeAsWritten(props, now, host)
    case Some(t) => Clamped(Appended(prev, props, t), t)
    case None => CreateEmptySeries()
  }

  /** A message whose `ts` does not parse wipes the whole twelve-hour history as written. */
  lemma UnparsableTsWipesHistory(prev: SeriesMap, props: map<string, JsValue>, now: int, host: Host)
    requires Complete(prev)
    requires Truthy(Prop(props, "ts")) && host.timeValue(Prop(props, "ts")).None?
    ensures forall k: MetricKey :: SeriesAfterAsWritten(prev, props, now, host)[k] == []
  {
  }

  /** Per message and metric: the old series cut at twelve hours before the message time, then
      the new point if the payload has a usable number, which is never cut. */
  lemma MessageUpdatesSeries(prev: SeriesMap, props: map<string, JsValue>, t: int, k: MetricKey)
    requires Complete(prev)
    ensures Clamped(Appended(prev, props, t), t)[k] == Since(prev[k], t - MaxRangeMs) + NewPoints(props, k, t)
  {
    var added := NewPoints(props, k, t);
    SinceAppend(prev[k], added, t - MaxRangeMs);
    SinceKeepsRecent(added, t - MaxRangeMs);
  }

  /**
   * The corrected handler keeps what the as-written one loses: a recent point survives a
   * message whose `ts` does not parse, and so does the message's own reading.
   */
  lemma CorrectedKeepsHistory(prev: SeriesMap, props: map<string, JsValue>, now: int, host: Host, k: MetricKey, p: SeriesPoint)
    requires Complete(prev)
    requires Truthy(Prop(props, "ts")) && host.timeValue(Prop(props, "ts")).None?
    requires p in prev[k] && now - MaxRangeMs <= p.ts
    ensures p in Clamped(Appended(prev, props, MessageTime(props, now, host)), MessageTime(props, now, host))[k]
    ensures p !in SeriesAfterAsWritten(prev, props, now, host)[k]
  {
    MessageUpdatesSeries(prev, props, now, k);
    SinceMembers(prev[k], now - MaxRangeMs);
  }

  // ---------------------------------------------------------------- live values

  /** `LiveValues`: the latest device id, message time and value of each metric, each optional. */
  datatype LiveValues = LiveValues(deviceId: Option<JsValue>, ts: Option<int>, metrics: map<MetricKey, JsNumber>)

  /** The metrics whose payload value is a number (NaN and the infinities included). */
  function NumericKeys(props: map<string, JsValue>): (ks: set<MetricKey>)
    ensures forall k :: k in ks <==> Prop(props, KeyName(k)).JNum?
  {
    set k: MetricKey | k in MetricKeys && Prop(props, KeyName(k)).JNum?
  }

  /** The `setLive` spread merge. */
  function Merged(prev: LiveValues, props: map<string, JsValue>, t: int): (r: LiveValues)
    ensures r.ts == Some(t)
    ensures IsNullish(Prop(props, "deviceId")) ==> r.deviceId == prev.deviceId
    ensures !IsNullish(Prop(props, "deviceId")) ==> r.deviceId == Some(Prop(props, "deviceId"))
    ensures r.metrics.Keys == prev.metrics.Keys + NumericKeys(props)
    ensures forall k :: k in r.metrics ==>
      r.metrics[k] == if Prop(props, KeyName(k)).JNum? then Prop(props, KeyName(k)).n else prev.metrics[k]
  {
    var id := Prop(props, "deviceId");
    LiveValues(
      if IsNullish(id) then prev.deviceId else Some(id),
      Some(t),
      map k | k in prev.metrics.Keys + NumericKeys(props) ::
        if Prop(props, KeyName(k)).JNum? then Prop(props, KeyName(k)).n else prev.metrics[k])
  }

  /** A metric the payload gives no number for keeps its live value (a null leaves it alone). */
  lemma MergedKeepsOthers(prev: LiveValues, props: map<string, JsValue>, t: int, k: MetricKey)
    requires !Prop(props, KeyName(k)).JNum?
    ensures k in Merged(prev, props, t).metrics <==> k in prev.metrics
    ensures k in prev.metrics ==> Merged(prev, props, t).metrics[k] == prev.metrics[k]
  {
  }

  /** Merging the same message twice is merging it once. */
  lemma MergedIdempotent(prev: LiveValues, props: map<string, JsValue>, t: int)
    ensures Merged(Merged(prev, props, t), props, t) == Merged(prev, props, t)
  {
    var once := Merged(prev, props, t);
    var twice := Merged(once, props, t);
    assert twice.metrics.Keys == once.metrics.Keys;
    assert forall k :: k in twice.metrics ==> twice.metrics[k] == once.metrics[k];
  }

  // ---------------------------------------------------------------- selected range

  /** `rangedSeries`: every series cut at `minutes` before `now`. */
  function RangedSeries(series: SeriesMap, now: int, minutes: int): (m: SeriesMap)
    requires Complete(series)
    ensures Complete(m)
    ensures forall k: MetricKey :: m[k] == Since(series[k], now - minutes * 60 * 1000)
  {
    map k: MetricKey | k in series :: Since(series[k], now - minutes * 60 * 1000)
  }

  /** A shorter range shows exactly the longer range's points that fall in the shorter window. */
  lemma RangedNested(series: SeriesMap, now: int, shorter: int, longer: int, k: MetricKey)
    requires Complete(series)
    requires shorter <= longer
    ensures RangedSeries(series, now, shorter)[k] ==
      Since(RangedSeries(series, now, longer)[k], now - shorter * 60 * 1000)
  {
    SinceTwice(series[k], now - longer * 60 * 1000, now - shorter * 60 * 1000);
  }

  // ---------------------------------------------------------------- the dashboard state

  /** The component state the WebSocket handler updates. */
  class Dashboard {
    var series: SeriesMap
    var live: LiveValues

    predicate Valid()
      reads this
    {
      Complete(series)
    }

    constructor()
      ensures Valid()
      ensures series == CreateEmptySeries()
      ensures live == LiveValues(None, None, map[])
    {
      series := CreateEmptySeries();
      live := LiveValues(None, None, map[]);
    }

    /**
     * `ws.onmessage` with the message time corrected. A message that does not parse, or parses
     * to `null`, changes nothing. Otherwise each metric with a usable number gets one point at
     * the message time, every series is trimmed to twelve hours before that time, and the live
     * values are merged.
     */
    method OnMessage(message: Decoded, now: int, host: Host)
      requires Valid()
      modifies this
      ensures Valid()
      ensures !message.JsonObject? ==> series == old(series) && live == old(live)
      ensures message.JsonObject? ==>
        var t := MessageTime(message.props, now, host);
        && series == Clamped(Appended(old(series), message.props, t), t)
        && live == Merged(old(live), message.props, t)
    {
      if !message.JsonObject? {
        return;
      }
      var payload := message.props;
      var t := MessageTime(payload, now, host);
      var updated := series;
      updated := AddPoint(updated, payload, AhtT, t);
      updated := AddPoint(updated, payload, AhtH, t);
      updated := AddPoint(updated, payload, BmpT, t);
      updated := AddPoint(updated, payload, BmpP, t);
      updated := AddPoint(updated, payload, Mq135, t);
      updated := AddPoint(updated, payload, Mq3, t);
      AddPointsAppend(series, payload, t);
      series := ClampSeries(updated, t);
      live := Merged(live, payload, t);
    }
  }
}
