/**
 * The backend's shared types (backend/src/types.ts): the seven recognised metric fields,
 * a normalised reading, and a history of points per metric.
 */
module Metrics {
  import opened Wrappers
  import opened JsValues

  datatype MetricField = BmpT | BmpP | BmpQnh | AhtT | AhtH | Mq135 | Mq3

  /** `METRIC_FIELDS`, in declaration order. */
  const MetricFields: seq<MetricField> := [BmpT, BmpP, BmpQnh, AhtT, AhtH, Mq135, Mq3]

  /** The wire name of a metric, as used in payloads, store rows and responses. */
  function FieldName(f: MetricField): string
  {
    match f
    case BmpT => "bmp_t"
    case BmpP => "bmp_p"
    case BmpQnh => "bmp_qnh"
    case AhtT => "aht_t"
    case AhtH => "aht_h"
    case Mq135 => "mq135"
    case Mq3 => "mq3"
  }

  /** `METRIC_FIELDS.includes(name)`, giving the metric it names. */
  function FieldNamed(name: string): (r: Option<MetricField>)
    ensures r.Some? ==> FieldName(r.value) == name
    ensures r.None? ==> forall f: MetricField :: FieldName(f) != name
  {
    if name == "bmp_t" then Some(BmpT)
    else if name == "bmp_p" then Some(BmpP)
    else if name == "bmp_qnh" then Some(BmpQnh)
    else if name == "aht_t" then Some(AhtT)
    else if name == "aht_h" then Some(AhtH)
    else if name == "mq135" then Some(Mq135)
    else if name == "mq3" then Some(Mq3)
    else None
  }

  lemma AllFieldsListed()
    ensures forall f: MetricField :: f in MetricFields
  {
    forall f: MetricField ensures f in MetricFields {
      match f
      case BmpT => assert MetricFields[0] == f;
      case BmpP => assert MetricFields[1] == f;
      case BmpQnh => assert MetricFields[2] == f;
      case AhtT => assert MetricFields[3] == f;
      case AhtH => assert MetricFields[4] == f;
      case Mq135 => assert MetricFields[5] == f;
      case Mq3 => assert MetricFields[6] == f;
    }
  }

  /** `MeteoReading`: each metric is either absent or a finite number; `ts` is the ingestion time in ms. */
  datatype Reading = Reading(
    deviceId: JsValue,
    bmpT: Option<real>,
    bmpP: Option<real>,
    bmpQnh: Option<real>,
    ahtT: Option<real>,
    ahtH: Option<real>,
    mq135: Option<real>,
    mq3: Option<real>,
    ts: int)
  {
    function Get(f: MetricField): Option<real>
    {
      match f
      case BmpT => bmpT
      case BmpP => bmpP
      case BmpQnh => bmpQnh
      case AhtT => ahtT
      case AhtH => ahtH
      case Mq135 => mq135
      case Mq3 => mq3
    }
  }

  /** `HistoryPoint`: a parsed store timestamp (ms) and a finite value. */
  datatype HistoryPoint = HistoryPoint(ts: int, value: real)

  /** `HistoryResult`: one list of points per metric. */
  type History = map<MetricField, seq<HistoryPoint>>

  predicate SortedByTs(points: seq<HistoryPoint>)
  {
    forall i, j :: 0 <= i < j < |points| ==> points[i].ts <= points[j].ts
  }
}
