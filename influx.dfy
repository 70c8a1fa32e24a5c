/**
 * The store gateway (backend/src/influx.ts): writing a reading as a store point and
 * answering a history query by reshaping the rows the store returns into one ordered
 * list per metric. Whether store I/O is enabled is fixed when the gateway is created
 * (an empty token disables it); the rows a query returns are an input.
 */
module Influx {
  import opened Wrappers
  import opened JsValues
  import opened Helpers
  import opened Metrics

  /** A point as handed to the write API. */
  datatype PointRecord = PointRecord(measurement: string, tags: map<string, string>, fields: map<string, real>)

  /** What the Flux query text asks the store for: the last `rangeMinutes` minutes of
      "reading" points of the recognised fields, optionally of one device, sorted by time. */
  datatype FluxQuery = FluxQuery(rangeMinutes: int, deviceFilter: Option<string>)

  /** `QueryHistoryParams`. */
  datatype QueryParams = QueryParams(rangeMinutes: real, deviceId: JsValue)

  /** One row of the query result: `_field`, `_time` (possibly missing) and `_value`. */
  datatype Row = Row(field: string, time: Option<string>, value: JsValue)

  /** What `collectRows` produced: the rows, or an exception. */
  datatype Collected = Rows(rows: seq<Row>) | QueryFailed

  // ---------------------------------------------------------------- empty history

  /** The `reduce` of `createEmptyHistory` over a list of fields. */
  function EmptyHistoryOf(fields: seq<MetricField>): (h: History)
    ensures forall f :: f in h <==> f in fields
    ensures forall f :: f in h ==> h[f] == []
  {
    if fields == [] then map[]
    else EmptyHistoryOf(fields[..|fields| - 1])[fields[|fields| - 1] := []]
  }

  /** `createEmptyHistory`: every one of the seven metrics, each with no points. */
  function CreateEmptyHistory(): (h: History)
    ensures forall f: MetricField :: f in h && h[f] == []
  {
    AllFieldsListed();
    EmptyHistoryOf(MetricFields)
  }

  // ---------------------------------------------------------------- writing

  function Lift(v: Option<real>): Option<JsNumber>
  {
    if v.Some? then Some(Finite(v.value)) else None
  }

  /** The effect of `addField` on a field map. */
  function WithField(fields: map<string, real>, name: string, value: Option<real>): map<string, real>
  {
    if value.Some? then fields[name := value.value] else fields
  }

  /** The fields `writePoint` adds, in its order. */
  function FieldsOf(r: Reading): map<string, real>
  {
    var m0 := WithField(map[], "bmp_t", r.bmpT);
    var m1 := WithField(m0, "bmp_p", r.bmpP);
    var m2 := WithField(m1, "bmp_qnh", r.bmpQnh);
    var m3 := WithField(m2, "aht_t", r.ahtT);
    var m4 := WithField(m3, "aht_h", r.ahtH);
    var m5 := WithField(m4, "mq135", r.mq135);
    WithField(m5, "mq3", r.mq3)
  }

  /** The point `writePoint` builds for a reading. */
  function PointOf(r: Reading, host: Host): PointRecord
  {
    PointRecord("reading", map["deviceId" := ToText(r.deviceId, host)], FieldsOf(r))
  }

  /** A written point is a "reading" tagged with the device id, holding exactly the reading's present
      metrics, under their names, and nothing else. */
  lemma PointOfFields(r: Reading, host: Host)
    ensures forall f: MetricField :: FieldName(f) in PointOf(r, host).fields <==> r.Get(f).Some?
    ensures forall f: MetricField :: r.Get(f).Some? ==> PointOf(r, host).fields[FieldName(f)] == r.Get(f).value
    ensures forall k :: k in PointOf(r, host).fields ==> FieldNamed(k).Some?
    ensures PointOf(r, host).measurement == "reading"
    ensures PointOf(r, host).tags == map["deviceId" := ToText(r.deviceId, host)]
  {
    var fields := PointOf(r, host).fields;
    forall f: MetricField
      ensures FieldName(f) in fields <==> r.Get(f).Some?
      ensures r.Get(f).Some? ==> fields[FieldName(f)] == r.Get(f).value
    {
      match f
      case BmpT =>
      case BmpP =>
      case BmpQnh =>
      case AhtT =>
      case AhtH =>
      case Mq135 =>
      case Mq3 =>
    }
  }

  // ---------------------------------------------------------------- reading

  /** `Math.max(1, Math.floor(rangeMinutes))`: the whole number of minutes actually queried. */
  function QueryRange(rangeMinutes: real): (r: int)
    ensures r >= 1
    ensures r == 1 || r as real <= rangeMinutes
    ensures rangeMinutes < (r + 1) as real
  {
    if rangeMinutes.Floor < 1 then 1 else rangeMinutes.Floor
  }

  /** `params.deviceId ? String(params.deviceId) : null`. */
  function DeviceFilter(deviceId: JsValue, host: Host): (r: Option<string>)
    ensures r.Some? <==> Truthy(deviceId)
  {
    if Truthy(deviceId) then Some(ToText(deviceId, host)) else None
  }

  /** An accepted row: the metric it belongs to and the point it contributes. */
  datatype Accepted = Accepted(field: MetricField, point: HistoryPoint)

  /**
   * The filter of the row loop: the field must be a recognised metric, `_time` must be a
   * non-empty string that parses, and `Number(_value)` must be finite.
   */
  function AcceptRow(row: Row, host: Host): (a: Option<Accepted>)
    ensures FieldNamed(row.field).None? ==> a.None?
    ensures row.time.None? || row.time == Some("") ==> a.None?
    ensures a.Some? <==>
      FieldNamed(row.field).Some? && row.time.Some? && row.time.value != "" &&
      NumberOf(row.value, host).Finite? && host.timeValue(JStr(row.time.value)).Some?
    ensures a.Some? ==>
      && FieldName(a.value.field) == row.field
      && NumberOf(row.value, host) == Finite(a.value.point.value)
      && host.timeValue(JStr(row.time.value)) == Some(a.value.point.ts)
  {
    match FieldNamed(row.field)
    case None => None
    case Some(f) =>
      var v := NumberOf(row.value, host);
      if row.time.None? || row.time.value == "" || !v.Finite? then None
      else
        match host.timeValue(JStr(row.time.value))
        case None => None
        case Some(ts) => Some(Accepted(f, HistoryPoint(ts, v.value)))
  }

  /** Whether a row contributes a point to metric `f`. */
  predicate AcceptedFor(row: Row, f: MetricField, host: Host)
  {
    var a := AcceptRow(row, host);
    a.Some? && a.value.field == f
  }

  /** The points of the rows accepted for metric `f`, in row order. */
  function SeriesOf(rows: seq<Row>, f: MetricField, host: Host): seq<HistoryPoint>
  {
    if rows == [] then []
    else
      var last := rows[|rows| - 1];
      SeriesOf(rows[..|rows| - 1], f, host) +
        (if AcceptedFor(last, f, host) then [AcceptRow(last, host).value.point] else [])
  }

  /** The history built from a whole row list: every metric, each with its accepted points. */
  function Reshaped(rows: seq<Row>, host: Host): (h: History)
    ensures forall f: MetricField :: f in h && h[f] == SeriesOf(rows, f, host)
  {
    AllFieldsListed();
    map f | f in MetricFields :: SeriesOf(rows, f, host)
  }

  lemma {:induction false} SeriesOfAppend(a: seq<Row>, b: seq<Row>, f: MetricField, host: Host)
    ensures SeriesOf(a + b, f, host) == SeriesOf(a, f, host) + SeriesOf(b, f, host)
    decreases |b|
  {
    if b == [] {
      assert a + b == a;
    } else {
      var b' := b[..|b| - 1];
      assert (a + b)[..|a + b| - 1] == a + b';
      assert (a + b)[|a + b| - 1] == b[|b| - 1];
      SeriesOfAppend(a, b', f, host);
    }
  }

  /**
   * Each row accepted for `f` contributes its point exactly once, at the position given by
   * the number of accepted rows before it: the list keeps row order.
   */
  lemma SeriesOfPosition(rows: seq<Row>, i: nat, f: MetricField, host: Host)
    requires i < |rows| && AcceptedFor(rows[i], f, host)
    ensures |SeriesOf(rows[..i], f, host)| < |SeriesOf(rows, f, host)|
    ensures SeriesOf(rows, f, host)[|SeriesOf(rows[..i], f, host)|] == AcceptRow(rows[i], host).value.point
  {
    assert rows == (rows[..i] + [rows[i]]) + rows[i + 1..];
    assert (rows[..i] + [rows[i]])[..i] == rows[..i];
    SeriesOfAppend(rows[..i] + [rows[i]], rows[i + 1..], f, host);
  }

  /** Every point of a metric's list comes from a row accepted for that metric. */
  lemma {:induction false} SeriesOfOrigin(rows: seq<Row>, f: MetricField, host: Host, k: nat)
    requires k < |SeriesOf(rows, f, host)|
    ensures exists i :: 0 <= i < |rows| && AcceptedFor(rows[i], f, host) &&
                        AcceptRow(rows[i], host).value.point == SeriesOf(rows, f, host)[k]
    decreases |rows|
  {
    var prefix := rows[..|rows| - 1];
    if k < |SeriesOf(prefix, f, host)| {
      SeriesOfOrigin(prefix, f, host, k);
      var i :| 0 <= i < |prefix| && AcceptedFor(prefix[i], f, host) &&
               AcceptRow(prefix[i], host).value.point == SeriesOf(prefix, f, host)[k];
      assert rows[i] == prefix[i];
    } else {
      assert AcceptedFor(rows[|rows| - 1], f, host);
    }
  }

  /** The rows' accepted timestamps do not decrease in row order (the query sorts by `_time`). */
  predicate AcceptedInTimeOrder(rows: seq<Row>, host: Host)
  {
    forall i, j :: 0 <= i < j < |rows| && AcceptRow(rows[i], host).Some? && AcceptRow(rows[j], host).Some? ==>
      AcceptRow(rows[i], host).value.point.ts <= AcceptRow(rows[j], host).value.point.ts
  }

  /** When the store returns rows in time order, every metric's list is in time order. */
  lemma {:induction false} SeriesOfSorted(rows: seq<Row>, f: MetricField, host: Host)
    requires AcceptedInTimeOrder(rows, host)
    ensures SortedByTs(SeriesOf(rows, f, host))
    decreases |rows|
  {
    if rows != [] {
      var prefix := rows[..|rows| - 1];
      var last := rows[|rows| - 1];
      assert AcceptedInTimeOrder(prefix, host) by {
        forall i, j | 0 <= i < j < |prefix| ensures prefix[i] == rows[i] && prefix[j] == rows[j] { }
      }
      SeriesOfSorted(prefix, f, host);
      var s := SeriesOf(prefix, f, host);
      if AcceptedFor(last, f, host) {
        forall k | 0 <= k < |s| ensures s[k].ts <= AcceptRow(last, host).value.point.ts {
          SeriesOfOrigin(prefix, f, host, k);
          var i :| 0 <= i < |prefix| && AcceptedFor(prefix[i], f, host) &&
                   AcceptRow(prefix[i], host).value.point == s[k];
          assert rows[i] == prefix[i];
        }
      }
    }
  }

  // ---------------------------------------------------------------- the gateway

  class Gateway {
    /** `writeApi !== null` and `queryApi !== null`. */
    const writeEnabled: bool
    const queryEnabled: bool
    /** The points handed to the write API so far. */
    var written: seq<PointRecord>

    /** Module initialisation: both APIs exist exactly when a token is configured. */
    constructor (token: string)
      ensures writeEnabled == (token != "") && queryEnabled == (token != "")
      ensures written == []
    {
      writeEnabled := token != "";
      queryEnabled := token != "";
      written := [];
    }

    /** `writePoint`: a no-op without a write API; otherwise the reading's point is written. */
    method WritePoint(reading: Reading, host: Host)
      modifies this
      ensures written == old(written) + (if writeEnabled then [PointOf(reading, host)] else [])
    {
      if !writeEnabled {
        return;
      }
      var point := new Point("reading");
      point.Tag("deviceId", ToText(reading.deviceId, host));
      AddField(point, "bmp_t", Lift(reading.bmpT));
      AddField(point, "bmp_p", Lift(reading.bmpP));
      AddField(point, "bmp_qnh", Lift(reading.bmpQnh));
      AddField(point, "aht_t", Lift(reading.ahtT));
      AddField(point, "aht_h", Lift(reading.ahtH));
      AddField(point, "mq135", Lift(reading.mq135));
      AddField(point, "mq3", Lift(reading.mq3));
      written := written + [PointRecord(point.measurement, point.tags, point.fields)];
    }

    /**
     * `queryHistory`: without a query API, the empty history and no query. Otherwise the
     * query is issued for `max(1, floor(rangeMinutes))` minutes; a failed collection leaves
     * the empty history, and collected rows are reshaped in order.
     */
    method QueryHistory(params: QueryParams, collected: Collected, host: Host)
      returns (history: History, issued: Option<FluxQuery>)
      ensures !queryEnabled ==> issued == None && history == CreateEmptyHistory()
      ensures queryEnabled ==>
        issued == Some(FluxQuery(QueryRange(params.rangeMinutes), DeviceFilter(params.deviceId, host)))
      ensures queryEnabled && collected.QueryFailed? ==> history == CreateEmptyHistory()
      ensures queryEnabled && collected.Rows? ==> history == Reshaped(collected.rows, host)
    {
      if !queryEnabled {
        return CreateEmptyHistory(), None;
      }
      var rangeMinutes := QueryRange(params.rangeMinutes);
      var deviceId := DeviceFilter(params.deviceId, host);
      issued := Some(FluxQuery(rangeMinutes, deviceId));
      history := CreateEmptyHistory();
      if collected.QueryFailed? {
        return;
      }
      var rows := collected.rows;
      for i := 0 to |rows|
        invariant forall f: MetricField :: f in history && history[f] == SeriesOf(rows[..i], f, host)
      {
        assert rows[..i + 1][..i] == rows[..i];
        var a := AcceptRow(rows[i], host);
        if a.Some? {
          history := history[a.value.field := history[a.value.field] + [a.value.point]];
        }
      }
      assert rows[..|rows|] == rows;
    }
  }
}
