/**
 * The backend's request and message handling (backend/src/index.ts): the set of live
 * WebSocket clients and the broadcast over it, the `/api/history` handler, and the MQTT
 * message handler that builds a reading, writes it to the store and broadcasts it.
 */
module Server {
  import opened Wrappers
  import opened JsValues
  import opened Helpers
  import opened Metrics
  import opened Influx

  /** `MAX_HISTORY_MINUTES`: twelve hours. */
  const MaxHistoryMinutes: int := 12 * 60

  // ---------------------------------------------------------------- live clients

  datatype ReadyState = Connecting | Open | Closing | Closed

  /** A connected WebSocket: its ready state, whether its transport throws on `send`,
      and the payloads sent to it so far. */
  class Socket {
    var readyState: ReadyState
    const broken: bool
    var delivered: seq<string>

    constructor (readyState: ReadyState, broken: bool)
      ensures this.readyState == readyState && this.broken == broken && delivered == []
    {
      this.readyState := readyState;
      this.broken := broken;
      delivered := [];
    }

    /** `socket.send(payload)`; `ok` is false where the call throws. */
    method Send(payload: string) returns (ok: bool)
      modifies this
      ensures ok == !broken
      ensures delivered == old(delivered) + (if ok then [payload] else [])
      ensures readyState == old(readyState)
    {
      ok := !broken;
      if ok {
        delivered := delivered + [payload];
      }
    }
  }

  /** The process-wide `wsClients` set and the operations on it. */
  class LiveHub {
    var clients: set<Socket>

    constructor ()
      ensures clients == {}
    {
      clients := {};
    }

    /** The `/ws` connection handler. */
    method Connect(s: Socket)
      modifies this
      ensures clients == old(clients) + {s}
    {
      clients := clients + {s};
    }

    /** The socket's `close` handler. */
    method Disconnect(s: Socket)
      modifies this
      ensures clients == old(clients) - {s}
    {
      clients := clients - {s};
    }

    /**
     * `broadcast`: the reading is serialised once and sent to every OPEN client; a client
     * whose send throws gets nothing and the loop goes on. No client is added or removed,
     * and no ready state changes.
     */
    method Broadcast(reading: Reading, encode: Reading -> string)
      modifies clients
      ensures forall c :: c in clients ==> c.readyState == old(c.readyState)
      ensures forall c :: c in clients ==>
        c.delivered == old(c.delivered) + (if old(c.readyState) == Open && !c.broken then [encode(reading)] else [])
    {
      var payload := encode(reading);
      var remaining := clients;
      while remaining != {}
        invariant remaining <= clients
        invariant forall c :: c in clients ==> c.readyState == old(c.readyState)
        invariant forall c :: c in remaining ==> c.delivered == old(c.delivered)
        invariant forall c :: c in clients && c !in remaining ==>
          c.delivered == old(c.delivered) + (if old(c.readyState) == Open && !c.broken then [payload] else [])
        decreases remaining
      {
        var c :| c in remaining;
        if c.readyState == Open {
          var _ := c.Send(payload);
        }
        remaining := remaining - {c};
      }
    }
  }

  // ---------------------------------------------------------------- /api/history

  /** The query string: `minutes` and `deviceId`, each possibly absent. */
  datatype HistoryRequest = HistoryRequest(minutes: Option<string>, deviceId: Option<string>)

  datatype HistoryReply =
    | BadRequest(status: int, error: string)
    | HistoryBody(rangeMinutes: int, deviceId: Option<string>, points: History)

  const InvalidMinutes: string := "Invalid 'minutes' query parameter"

  /** `query.minutes ?? "15"`. */
  function MinutesText(minutes: Option<string>): string
  {
    if minutes.Some? then minutes.value else "15"
  }

  /**
   * The validation and clamp of `minutes`: rejected unless `Number(minutesRaw)` is finite
   * and positive; otherwise `min(floor(minutes), 720)`.
   */
  function RangeMinutes(minutes: Option<string>, host: Host): (r: Option<int>)
    ensures var n := NumberOf(JStr(MinutesText(minutes)), host);
      r.Some? <==> n.Finite? && n.value > 0.0
    ensures r.Some? ==> 0 <= r.value <= MaxHistoryMinutes
    ensures r.Some? ==> var x := NumberOf(JStr(MinutesText(minutes)), host).value;
      && (x >= MaxHistoryMinutes as real ==> r.value == MaxHistoryMinutes)
      && (x < MaxHistoryMinutes as real ==> r.value as real <= x < (r.value + 1) as real)
  {
    var n := NumberOf(JStr(MinutesText(minutes)), host);
    if !n.Finite? || n.value <= 0.0 then None
    else if n.value.Floor < MaxHistoryMinutes then Some(n.value.Floor)
    else Some(MaxHistoryMinutes)
  }

  function OptionalText(s: Option<string>): JsValue
  {
    if s.Some? then JStr(s.value) else JUndefined
  }

  /**
   * The `/api/history` handler: a 400 reply for an invalid `minutes`; otherwise the clamped
   * range, the requested device (or null) and the gateway's history. The range the store is
   * finally asked for is always between 1 and 720 minutes.
   */
  method HandleHistory(gateway: Gateway, request: HistoryRequest, collected: Collected, host: Host)
    returns (reply: HistoryReply, issued: Option<FluxQuery>)
    ensures RangeMinutes(request.minutes, host).None? ==>
      reply == BadRequest(400, InvalidMinutes) && issued == None
    ensures RangeMinutes(request.minutes, host).Some? ==>
      && reply.HistoryBody?
      && reply.rangeMinutes == RangeMinutes(request.minutes, host).value
      && reply.deviceId == request.deviceId
      && reply.points == (if gateway.queryEnabled && collected.Rows? then Reshaped(collected.rows, host)
                          else CreateEmptyHistory())
    ensures issued.Some? <==> RangeMinutes(request.minutes, host).Some? && gateway.queryEnabled
    ensures issued.Some? ==> issued.value.rangeMinutes == QueryRange(RangeMinutes(request.minutes, host).value as real)
    ensures issued.Some? ==> 1 <= issued.value.rangeMinutes <= MaxHistoryMinutes
    ensures issued.Some? ==> issued.value.deviceFilter == (if request.deviceId == Some("") then None else request.deviceId)
  {
    var range := RangeMinutes(request.minutes, host);
    if range.None? {
      return BadRequest(400, InvalidMinutes), None;
    }
    var history;
    history, issued := gateway.QueryHistory(QueryParams(range.value as real, OptionalText(request.deviceId)), collected, host);
    reply := HistoryBody(range.value, request.deviceId, history);
  }

  // ---------------------------------------------------------------- MQTT messages

  /** The reading built from a parsed payload: each metric through `toNumber`, the device id
      as given, and the ingestion time. */
  function BuildReading(raw: map<string, JsValue>, now: int, host: Host): (r: Reading)
    ensures r.deviceId == Prop(raw, "deviceId") && r.ts == now
    ensures forall f: MetricField :: r.Get(f) == ToNumber(Prop(raw, FieldName(f)), host)
  {
    Reading(
      Prop(raw, "deviceId"),
      ToNumber(Prop(raw, "bmp_t"), host),
      ToNumber(Prop(raw, "bmp_p"), host),
      ToNumber(Prop(raw, "bmp_qnh"), host),
      ToNumber(Prop(raw, "aht_t"), host),
      ToNumber(Prop(raw, "aht_h"), host),
      ToNumber(Prop(raw, "mq135"), host),
      ToNumber(Prop(raw, "mq3"), host),
      now)
  }

  /**
   * The MQTT handler: a payload that does not parse to an object (or that is `null`, where
   * reading a property throws) changes nothing; otherwise the reading is written to the
   * store and broadcast to the live clients.
   */
  method OnMqttMessage(message: Decoded, now: int, gateway: Gateway, hub: LiveHub, host: Host,
                       encode: Reading -> string)
    modifies gateway, hub.clients
    ensures forall c :: c in hub.clients ==> c.readyState == old(c.readyState)
    ensures !message.JsonObject? ==>
      gateway.written == old(gateway.written) &&
      forall c :: c in hub.clients ==> c.delivered == old(c.delivered)
    ensures message.JsonObject? ==>
      var reading := BuildReading(message.props, now, host);
      && gateway.written == old(gateway.written) + (if gateway.writeEnabled then [PointOf(reading, host)] else [])
      && forall c :: c in hub.clients ==>
           c.delivered == old(c.delivered) + (if old(c.readyState) == Open && !c.broken then [encode(reading)] else [])
  {
    if !message.JsonObject? {
      return;
    }
    var reading := BuildReading(message.props, now, host);
    gateway.WritePoint(reading, host);
    hub.Broadcast(reading, encode);
  }

  /** A payload with a device id and one metric: that metric is present, the other six are
      absent, and the store point carries that one field. */
  lemma SingleMetricPayload(now: int, host: Host)
    ensures var r := BuildReading(map["deviceId" := JStr("d1"), "aht_t" := JNum(Finite(21.5))], now, host);
      && r.Get(AhtT) == Some(21.5)
      && (forall f: MetricField :: f != AhtT ==> r.Get(f) == None)
      && PointOf(r, host).fields == map["aht_t" := 21.5]
      && PointOf(r, host).tags == map["deviceId" := "d1"]
  {
    var r := BuildReading(map["deviceId" := JStr("d1"), "aht_t" := JNum(Finite(21.5))], now, host);
    assert r.Get(AhtT) == Some(21.5);
    PointOfFields(r, host);
  }

  /** A clamped range is always accepted by the store side unchanged, except 0 which becomes 1. */
  lemma RangeReachesStore(minutes: Option<string>, host: Host)
    requires RangeMinutes(minutes, host).Some?
    ensures var r := RangeMinutes(minutes, host).value;
      QueryRange(r as real) == (if r == 0 then 1 else r)
  {
  }

  /** Three open clients, the second of which throws on send: the other two receive the reading,
      the failing one receives nothing and stays connected until its close handler removes it. */
  method FanOutWithFailingClient(reading: Reading, encode: Reading -> string)
    returns (first: seq<string>, second: seq<string>, third: seq<string>, keptAfterBroadcast: bool, clientsAfterClose: nat)
    ensures first == [encode(reading)] && third == [encode(reading)]
    ensures second == []
    ensures keptAfterBroadcast
    ensures clientsAfterClose == 2
  {
    var hub := new LiveHub();
    var a := new Socket(Open, false);
    var b := new Socket(Open, true);
    var c := new Socket(Open, false);
    hub.Connect(a);
    hub.Connect(b);
    hub.Connect(c);
    assert hub.clients == {a, b, c};
    hub.Broadcast(reading, encode);
    assert a in hub.clients && b in hub.clients && c in hub.clients;
    first, second, third := a.delivered, b.delivered, c.delivered;
    keptAfterBroadcast := b in hub.clients;
    hub.Disconnect(b);
    assert hub.clients == {a, c};
    assert a != c;
    assert |{a}| == 1 && {a, c} == {a} + {c} && a !in {c};
    clientsAfterClose := |hub.clients|;
  }
}
