# Meteo station telemetry core, modelled in Dafny

The meteo station publishes sensor readings over MQTT. The backend turns each message into a
reading, writes it to InfluxDB as a point and fans it out to the dashboard's WebSocket
clients. It also serves `/api/history`, reshaping the store's rows into one time-ordered series
per metric. The frontend keeps six live series trimmed to twelve hours and merges the latest live
values. It downsamples series for the chart, computes their statistics, and answers hover
queries with the closest point of each series.

This project models that core and proves what it promises:

- **Wire-level JavaScript values.** `js.dfy`, module `JsValues`, covers numbers with NaN and the
  infinities, `null`/`undefined`, truthiness and `Number(v)`. Whatever depends on the engine is
  a field of `Host`, so every property holds for every choice of those functions: numeric string
  parsing, `String(n)`, date parsing and `toFixed`.
- **The backend.**
  - `helpers.dfy`: `toNumber`, `addField`, and the Influx `Point` as a class.
  - `metrics.dfy`: the metric names and the reading.
  - `influx.dfy`: the `Gateway` class with `writePoint` and `queryHistory`. The row loop is
    proved against the reshaping function `Reshaped`.
  - `server.dfy`: the WebSocket client set as the `LiveHub` class with `broadcast`, the
    `/api/history` validation and clamp, and the MQTT message handler.
- **The frontend.**
  - `timeseries.dfy`: `computeStats`, `downsampleSeries` proved against the bucket-mean
    function `Buckets`, and `formatNumber`.
  - `chart.dfy`: `toNumberOrNull`, the bounded buffer `appendPoint`, `formatValue` and
    `hPaToMmHg`.
  - `chartview.dfy`: the chart component's preparation, scales, ticks, `findClosest` and the
    hover payload.
  - `app.dfy`: the dashboard state. It covers the retention trim, the per-message append, the
    live merge and the selected-range window.

Timestamps are integer milliseconds on the backend and in the dashboard state. They are reals
in the chart helpers, because downsampling averages timestamps. Metric values are reals. Where
the source can carry NaN or an infinity, the model keeps a `JsNumber`.

## Model

| member | source | states |
|---|---|---|
| Helpers.ToNumber | backend/src/helpers/index.ts:5-9 | zero gives 0; null, undefined, false, "" and NaN give nothing; otherwise the value is present exactly when `Number(v)` is finite and then equals it |
| Helpers.Point.FloatField | backend/src/helpers/index.ts:15 | a float field sets exactly that field of the point and leaves its tags alone |
| Helpers.AddField | backend/src/helpers/index.ts:12-16 | a point gains the field only for a present finite value; otherwise tags and fields are unchanged |
| Metrics.FieldNamed | backend/src/types.ts:16-24 | a wire name resolves to a metric exactly when it is one of the seven `METRIC_FIELDS` names, and back |
| Metrics.AllFieldsListed | backend/src/types.ts:16-24 | every metric field is in the ordered list of seven |
| Influx.EmptyHistoryOf | backend/src/influx.ts:14-19 | the history built from a list of fields has exactly those keys, each with no point |
| Influx.CreateEmptyHistory | backend/src/influx.ts:14-19 | the empty history has every metric, each with no point |
| Influx.PointOfFields | backend/src/influx.ts:30-44 | a written point carries measurement "reading", the device id as a string tag, and exactly the present metrics as fields |
| Influx.QueryRange | backend/src/influx.ts:61 | the store range is at least 1, the floor of the request when that is at least 1 |
| Influx.DeviceFilter | backend/src/influx.ts:62-70 | a device filter is added exactly when the requested device id is truthy |
| Influx.AcceptRow | backend/src/influx.ts:87-96 | a row is kept exactly when its field is a metric, its time is present and parses, and its value is a finite number |
| Influx.Reshaped | backend/src/influx.ts:82-104 | the reshaped history has every metric, each the series of accepted rows for it |
| Influx.SeriesOfAppend | backend/src/influx.ts:86-99 | reshaping distributes over concatenated row lists |
| Influx.SeriesOfPosition | backend/src/influx.ts:86-99 | each accepted row appears in its metric's series once, in row order |
| Influx.SeriesOfOrigin | backend/src/influx.ts:86-99 | every point of a series comes from an accepted row for that metric |
| Influx.SeriesOfSorted | backend/src/influx.ts:86-99 | rows in time order give sorted series |
| Influx.Gateway.constructor | backend/src/influx.ts:21-28 | writes and queries are enabled exactly when a token is configured |
| Influx.Gateway.WritePoint | backend/src/influx.ts:30-44 | with writes enabled the store gains exactly the reading's point; otherwise nothing changes |
| Influx.Gateway.QueryHistory | backend/src/influx.ts:55-105 | disabled: the empty history and no query; failed collection: the empty history; otherwise the reshaped rows, with the clamped range and device filter issued |
| Server.Socket.Send | backend/src/index.ts:24 | a healthy socket records the payload; a broken one throws and records nothing |
| Server.LiveHub.Connect | backend/src/index.ts:40-41 | connecting adds the socket to the set |
| Server.LiveHub.Disconnect | backend/src/index.ts:43-45 | closing removes the socket from the set |
| Server.LiveHub.Broadcast | backend/src/index.ts:19-30 | the set is unchanged; each client receives the payload exactly when it is open and its send does not throw; ready states are untouched |
| Server.RangeMinutes | backend/src/index.ts:53-61 | minutes (default "15") is accepted exactly when finite and positive, then becomes its floor capped at 720 |
| Server.HandleHistory | backend/src/index.ts:50-73 | an invalid minutes gives status 400 with the error text and no query; otherwise the range, the echoed device id and the history; a query is issued exactly for a valid request with queries enabled, for the store-side clamp of the validated range, which lies between 1 and 720 minutes |
| Server.BuildReading | backend/src/index.ts:80-90 | every metric of the reading is `toNumber` of the payload's property; the device id is passed through and the time is the ingestion time |
| Server.OnMqttMessage | backend/src/index.ts:76-97 | text that does not parse as JSON, or parses to `null`, changes nothing; any other payload (an object, or a number, string, boolean or array, which has no metric properties and so gives an all-null reading) is written, then delivered to every open healthy client |
| Server.SingleMetricPayload | backend/src/index.ts:80-93 | a payload with one metric yields a reading and a point with just that metric |
| Server.RangeReachesStore | backend/src/index.ts:61 | a validated range reaches the store unchanged, except 0 which becomes 1 |
| Server.FanOutWithFailingClient | backend/src/index.ts:19-45 | with three open clients of which the second throws on send, the other two receive the reading, the second receives nothing and stays in the set, and closing it leaves two clients |
| Timeseries.SumBounds | frontend/src/helpers/timeseries.ts:15 | the sum of values within bounds lies between n times the bounds |
| Timeseries.MeanBounds | frontend/src/helpers/timeseries.ts:21 | the mean of values within bounds lies within them |
| Timeseries.ComputeStats | frontend/src/helpers/timeseries.ts:4-23 | nothing for no points; otherwise min and max occur in the input and bound every value, avg is the mean, and min <= avg <= max |
| Timeseries.BucketSize | frontend/src/helpers/timeseries.ts:32 | a non-empty input gives a bucket size of at least 1 |
| Timeseries.CeilDiv | frontend/src/helpers/timeseries.ts:32 | the bucket size is the ceiling of n / maxPoints |
| Timeseries.SliceMean | frontend/src/helpers/timeseries.ts:39-48 | the running-sum loop yields the mean timestamp and mean value of its slice |
| Timeseries.BucketsStep | frontend/src/helpers/timeseries.ts:35-50 | the buckets from a position on are the mean of the next slice followed by the buckets after it |
| Timeseries.DownsampleSeries | frontend/src/helpers/timeseries.ts:29-53 | the stepped loop returns the bucket means of the input |
| Timeseries.BucketCountIsCeil | frontend/src/helpers/timeseries.ts:35-50 | the number of buckets is the ceiling of n / bucketSize |
| Timeseries.BucketsLength | frontend/src/helpers/timeseries.ts:35-50 | one output point per bucket |
| Timeseries.MulMonotone | frontend/src/helpers/timeseries.ts:32-35 | more buckets of the same size cover at least as many points |
| Timeseries.DownsampledLength | frontend/src/helpers/timeseries.ts:29-35 | a short series is returned unchanged; a long one gives at most maxPoints points, whose buckets just cover the input |
| Timeseries.BucketAt | frontend/src/helpers/timeseries.ts:35-50 | output point k is the mean of the slice from k times bucketSize to the next bucket start or the end |
| Timeseries.BucketBounds | frontend/src/helpers/timeseries.ts:35-50 | each bucket's slice lies within the input |
| Timeseries.BucketsPartition | frontend/src/helpers/timeseries.ts:35-50 | consecutive slices meet end to start, and the last ends at the end of the input |
| Timeseries.BucketWithin | frontend/src/helpers/timeseries.ts:39-49 | an averaged coordinate lies between its bucket's bounds |
| Timeseries.BucketsSorted | frontend/src/helpers/timeseries.ts:39-49 | bucket means of a sorted input are sorted |
| Timeseries.DownsampledSorted | frontend/src/helpers/timeseries.ts:29-53 | downsampling keeps timestamps non-decreasing |
| Timeseries.FormatNumber | frontend/src/helpers/timeseries.ts:55-60 | null, undefined and NaN give a dash; any other number gives its fixed-point text |
| ChartHelpers.ToNumberOrNull | frontend/src/helpers/chart.ts:9-13 | the argument comes back exactly when it is a finite number; strings and everything else give null |
| ChartHelpers.StricterThanToNumber | frontend/src/helpers/chart.ts:9-13 | whatever the chart accepts, the backend's `toNumber` accepts with the same value |
| ChartHelpers.AppendPoint | frontend/src/helpers/chart.ts:15-21 | below the cap the point is appended; otherwise the first element is dropped; the point is last; a list within the cap stays within it |
| ChartHelpers.AppendToWindow | frontend/src/helpers/chart.ts:15-21 | appending to the last maxPoints points of a stream gives the last maxPoints points of the longer stream |
| ChartHelpers.AppendAllIsWindow | frontend/src/helpers/chart.ts:15-21 | starting from a buffer within the cap, appending a stream point by point keeps exactly the last maxPoints points of buffer plus stream |
| ChartHelpers.AppendAllIsWindowFrom | frontend/src/helpers/chart.ts:15-21 | from the last maxPoints points of any history, repeated appends keep the last maxPoints points of history plus stream |
| ChartHelpers.Decimals | frontend/src/helpers/chart.ts:36-38 | 0 decimals from 100 up, 1 from 10 up, otherwise 2 |
| ChartHelpers.DecimalsMonotone | frontend/src/helpers/chart.ts:36-38 | a larger magnitude never gets more decimals |
| ChartHelpers.FormatValue | frontend/src/helpers/chart.ts:31-42 | null gives a dash; otherwise the fixed-point text, with " unit" appended only for a non-empty unit |
| ChartHelpers.HPaToMmHg | frontend/src/helpers/chart.ts:45-48 | null stays null; a value becomes value times 0.75006 |
| ChartHelpers.HPaToMmHgMonotone | frontend/src/helpers/chart.ts:45-48 | the conversion preserves order and fixes zero |
| TimeSeriesChart.FirstClosestIndex | frontend/src/components/TimeSeriesChart.tsx:126-138 | the chosen index has minimal distance to the target, and every earlier index is strictly farther |
| TimeSeriesChart.FindClosest | frontend/src/components/TimeSeriesChart.tsx:126-138 | null for no points; otherwise the first point at minimal distance |
| TimeSeriesChart.ClosestExamples | frontend/src/components/TimeSeriesChart.tsx:126-138 | for points at 10 and 20, target 19 picks 20, and the tie at 15 picks 10 |
| TimeSeriesChart.DownsampleAll | frontend/src/components/TimeSeriesChart.tsx:24-27 | every series keeps its id and caption, and its points are downsampled to 240 |
| TimeSeriesChart.AllPointsMembers | frontend/src/components/TimeSeriesChart.tsx:29-31 | the flattened list holds exactly the series' points, and is empty exactly when every series is |
| TimeSeriesChart.Widen | frontend/src/components/TimeSeriesChart.tsx:55-59 | distinct bounds are kept; flat bounds are widened symmetrically by 1 near zero, otherwise by a tenth of the value, leaving lo < hi |
| TimeSeriesChart.FindSeries | frontend/src/components/TimeSeriesChart.tsx:63 | the first series with the id, or none when no series has it |
| TimeSeriesChart.Baseline | frontend/src/components/TimeSeriesChart.tsx:61-68 | a baseline exists exactly when the id is non-empty and its first series has points, and is then their mean value |
| TimeSeriesChart.BaselineWithinRange | frontend/src/components/TimeSeriesChart.tsx:61-68 | the baseline lies within the chart's value range |
| TimeSeriesChart.Extent | frontend/src/components/TimeSeriesChart.tsx:43-53 | the scan's four bounds enclose every point, and each is attained by some point: the least and greatest timestamp and value |
| TimeSeriesChart.ExtentOfSeries | frontend/src/components/TimeSeriesChart.tsx:29-53 | attained bounds over the flattened list are attained bounds over the series |
| TimeSeriesChart.WidenKeepsBounds | frontend/src/components/TimeSeriesChart.tsx:55-59 | widening keeps every point inside the value bounds |
| TimeSeriesChart.Prepare | frontend/src/components/TimeSeriesChart.tsx:23-79 | no data exactly when every downsampled series is empty; otherwise the least and greatest timestamp, the value range `Widen` of the least and greatest value (so minVal < maxVal), and the baseline, which lies within that range |
| TimeSeriesChart.SpanOrOne | frontend/src/components/TimeSeriesChart.tsx:95-96 | a span of zero becomes 1; any other span is kept |
| TimeSeriesChart.RatioInUnit | frontend/src/components/TimeSeriesChart.tsx:98-102 | a coordinate between the bounds maps to a fraction between 0 and 1 |
| TimeSeriesChart.ScalesInPlotArea | frontend/src/components/TimeSeriesChart.tsx:93-102 | every point in the bounds is drawn inside the padded plotting area |
| TimeSeriesChart.TickEnds | frontend/src/components/TimeSeriesChart.tsx:104-114 | the first tick is the start and the last the end of the span |
| TimeSeriesChart.TickStep | frontend/src/components/TimeSeriesChart.tsx:104-114 | consecutive ticks are span / count apart |
| TimeSeriesChart.Ticks | frontend/src/components/TimeSeriesChart.tsx:104-114 | count + 1 evenly spaced ticks from the start to the end, increasing for a positive span |
| TimeSeriesChart.FirstNonEmpty | frontend/src/components/TimeSeriesChart.tsx:164-166 | the index of the first series with points, every earlier one being empty |
| TimeSeriesChart.FirstNonEmptyAt | frontend/src/components/TimeSeriesChart.tsx:164-166 | the first series found with points is the one `FirstNonEmpty` names |
| TimeSeriesChart.IdsStep | frontend/src/components/TimeSeriesChart.tsx:157-170 | the payload keys grow by one series id per step |
| TimeSeriesChart.ValuesStep | frontend/src/components/TimeSeriesChart.tsx:157-170 | one more series keeps every id's value equal to that of its last series |
| TimeSeriesChart.HoverAt | frontend/src/components/TimeSeriesChart.tsx:140-183 | outside the plot no payload; inside, every id maps to the closest value of its last series (null when empty), the timestamp is that of the first non-empty series' closest point, and no payload when all are empty |
| App.KeyIndex | frontend/src/App.tsx:28-35 | every metric key is listed in `METRIC_KEYS` |
| App.CreateEmptySeries | frontend/src/App.tsx:39-46 | all six keys, each with no point |
| App.SinceMembers | frontend/src/App.tsx:53 | the filter keeps exactly the points at or after the cutoff |
| App.SinceAppend | frontend/src/App.tsx:53 | the filter distributes over concatenation, so order is kept |
| App.SinceKeepsRecent | frontend/src/App.tsx:53 | a series entirely after the cutoff is kept whole |
| App.SinceTwice | frontend/src/App.tsx:53 | filtering twice equals filtering once at the later cutoff |
| App.Clamped | frontend/src/App.tsx:48-57 | the trimmed map has all six keys |
| App.ClampSeries | frontend/src/App.tsx:48-57 | a fresh map with all six keys, each the input series cut at twelve hours before now |
| App.ClampKeepsLastTwelveHours | frontend/src/App.tsx:37-57 | per metric, the trim keeps exactly the points of the last twelve hours |
| App.NewPoints | frontend/src/App.tsx:86-90 | one point at the message time exactly when the payload value is a number other than NaN (infinities pass) |
| App.Appended | frontend/src/App.tsx:76-98 | the updated map keeps all six keys |
| App.AddPointsAppend | frontend/src/App.tsx:86-97 | the six `addPoint` calls append each metric's new point to its own series only |
| App.MessageTime | frontend/src/App.tsx:74 | corrected (see Findings): the parsed `ts` when it is truthy and parses; otherwise the receive time |
| App.MessageTimeAsWritten | frontend/src/App.tsx:74 | a truthy `ts` is parsed even when that yields NaN; only a falsy one falls back to the receive time |
| App.SeriesAfterAsWritten | frontend/src/App.tsx:74-100 | the series after a message as written keep all six keys |
| App.UnparsableTsWipesHistory | frontend/src/App.tsx:74-100 | as written, a message with an unparsable `ts` empties every series |
| App.MessageUpdatesSeries | frontend/src/App.tsx:76-99 | per metric, the old series cut at twelve hours before the message time, followed by the new point if any, which the trim never drops |
| App.CorrectedKeepsHistory | frontend/src/App.tsx:74-100 | with the corrected time a recent point survives an unparsable `ts`; as written it is lost |
| App.NumericKeys | frontend/src/App.tsx:106-111 | the metrics whose payload value is a number, NaN included |
| App.Merged | frontend/src/App.tsx:102-112 | the live time is the message time; the device id changes only for a non-nullish payload id; exactly the numeric metrics are overwritten |
| App.MergedKeepsOthers | frontend/src/App.tsx:102-112 | a metric without a numeric payload value, a null included, keeps its live value |
| App.MergedIdempotent | frontend/src/App.tsx:102-112 | merging the same message twice equals merging it once |
| App.RangedSeries | frontend/src/App.tsx:132-147 | every key is the series cut at `minutes` before now |
| App.RangedNested | frontend/src/App.tsx:132-147 | a shorter range shows exactly the longer range's points inside the shorter window |
| App.Dashboard.constructor | frontend/src/App.tsx:60-61 | the dashboard starts with six empty series and no live values |
| App.Dashboard.OnMessage | frontend/src/App.tsx:71-117 | corrected (see Findings): a message that does not parse, or is null, changes nothing; otherwise each metric gains its new point, all series are trimmed relative to the corrected message time, and the live values are merged |

## Left out

- Transport and wiring are not modelled. That covers the MQTT client, the Fastify server and its
  CORS and health routes, and the WebSocket `open`, `error` and `close` plumbing beyond the
  client set. It also covers the Influx client construction, `flush` and `beforeExit`, and the
  React rendering and SVG drawing.
- The Flux query text is not modelled; the issued query is a value holding its range and device
  filter. `collectRows` is an input: either a list of rows or a failure.
- Clocks are parameters (`now`), and so is the mouse position (`relativeX`). `Date` parsing,
  `toISOString`, locale time formatting, `toFixed` digits and `String(n)` are uninterpreted
  `Host` functions. The backend reading's ISO timestamp is kept as the millisecond value it encodes.
- Numbers are exact reals, not IEEE doubles: rounding in sums, means, scales and the 0.75006
  conversion is not modelled.
- `JSON.stringify` of the broadcast reading is a parameter (`encode`).
- JSON objects and arrays as metric values are left out; payload properties are primitives.
- Server.LiveHub.Broadcast: the loop picks clients in an arbitrary order, not in set insertion
  order, since the outcome does not depend on it.
- Server.Socket.Send: a send that throws is modelled as a client flagged broken; what makes a
  real send throw is not modelled.
- Timeseries.DownsampleSeries: requires `maxPoints >= 1` when the series is longer than
  `maxPoints`. With 0, `n / 0` is Infinity in JavaScript, so the bucket size is Infinity and the
  source returns one point, the mean of the whole series; that case is not modelled. With a
  negative value the step is negative and the loop never ends. Every caller uses the default
  of 240.
- Timeseries.FormatNumber: the precondition limits the value to null, undefined or a number,
  as its TypeScript signature does.
- App.Dashboard.OnMessage: models the handler with the corrected message time. As written, a
  message with a truthy `ts` that does not parse gives a NaN time; every series is then emptied
  (shown by App.UnparsableTsWipesHistory), and the live `ts` becomes NaN, which the model does
  not represent. App.MessageTime is likewise the corrected time; App.MessageTimeAsWritten is
  the time as written.
- Influx.Gateway.QueryHistory: a NaN `rangeMinutes` cannot reach it, because the history
  handler rejects it first, so the model takes the range as a real number.
- TimeSeriesChart.HoverAt: the missing-container guard is not modelled, nor the conversion of
  the client coordinate to `relativeX`.
- A chart series' `label` is named `caption` here, and its `color` is not modelled.
- The chart helpers take finite reals. An infinite value that the dashboard's append guard lets
  through is kept in App's series as a `JsNumber`, but how the chart would draw it is not
  modelled.
- The time-range selector, the chart card, the line chart, the element-size hook and the series
  hook are not part of this model. They hold buttons, layout and a thin state wrapper around
  `appendPoint`.
- Broadcast does not remove a client whose send throws. The client stays in the set until its
  close handler runs, and the model follows that.

## Findings

| source | as written | input that shows it | evidently intended | confidence | as-written member | corrected member |
|---|---|---|---|---|---|---|
| frontend/src/App.tsx:74 | a truthy `ts` that does not parse gives a NaN time; the trim's cutoff is then NaN, every `p.ts >= cutoff` is false, and all six series are emptied, the new points included | a message `{"ts": "not-a-date", "aht_t": 21}` after any history | fall back to the receive time when `ts` does not parse, so history and the new point are kept | not executed | App.UnparsableTsWipesHistory | App.CorrectedKeepsHistory |
