/**
  The per-message router of the MQTT-to-PostgreSQL bridge (`on_message`) and
  its three sinks (`store_message`, `store_sensor_data`, `store_status_data`).

  The database tables are append-only logs. Each sink call either commits
  (its rows are appended), is rolled back (nothing is appended, processing
  goes on), or hits a dropped connection: psycopg2 then marks the connection
  closed, the `rollback()` in the sink's handler raises again, the exception
  leaves the sink and the router's outer handler ends the message there.
  What the outside world decides (whether reconnecting works, what
  `json.loads` returns, how each sink call ends) is an input, `World`.
 */
module Bridge {
  import opened Wrappers
  import opened JsonValues
  import Text
  import opened CsiJson

  /** How one sink call ends. */
  datatype SinkOutcome = Committed | RolledBack | Lost

  /** The three sinks, as they appear in the call trace. */
  datatype Sink = RawSink | SensorSink | StatusSink

  /** A row of `mqtt_messages`. */
  datatype RawRow = RawRow(topic: string, payload: string)

  /** A row of `cr6_sensor_data`. */
  datatype SensorRow = SensorRow(
    station: Json,
    table: Json,
    timestamp: Json,
    recordNumber: Json,
    values: map<Json, Json>)

  /** A row of `cr6_status`. */
  datatype StatusRow = StatusRow(station: string, status: Json)

  /**
    One delivered message: its topic, and its payload decoded as UTF-8
    (`None` when the bytes are not valid UTF-8).
   */
  datatype Message = Message(topic: string, text: Option<string>)

  /** What the environment decides while one message is handled. */
  datatype World = World(
    reconnects: bool,      // `connect_database()` succeeds
    loads: Option<Json>,   // `json.loads(payload_str)`; `None` for a JSONDecodeError
    rawSink: SinkOutcome,
    sensorSink: SinkOutcome,
    statusSink: SinkOutcome)

  /** Everything the router's handling of messages can change. */
  datatype State = State(
    connUsable: bool,   // `db_conn` is not None and not closed
    raw: seq<RawRow>,
    sensor: seq<SensorRow>,
    status: seq<StatusRow>,
    calls: seq<Sink>)   // every sink call, whatever its outcome

  /** The station of a status topic: its third `/`-separated segment, if any. */
  function StationOf(topic: string): (station: string)
    ensures '/' !in station
  {
    var parts := Text.Split(topic, '/');
    Text.SplitPartsFree(topic, '/');
    if |parts| > 2 then parts[2] else "unknown"
  }

  /** The rows `store_sensor_data` inserts: one per record, in order. */
  function SensorRows(parsed: Parsed): (rows: seq<SensorRow>)
    ensures |rows| == |parsed.records|
  {
    seq(|parsed.records|, k requires 0 <= k < |parsed.records| =>
      SensorRow(parsed.station, parsed.table, parsed.records[k].timestamp,
                parsed.records[k].recordNumber, parsed.records[k].values))
  }

  /** The state after one sink call whose committed rows are `rows`. */
  function AfterRaw(s: State, row: RawRow, outcome: SinkOutcome): State
  {
    var called := s.(calls := s.calls + [RawSink]);
    match outcome
    case Committed => called.(raw := s.raw + [row])
    case RolledBack => called
    case Lost => called.(connUsable := false)
  }

  function AfterSensor(s: State, rows: seq<SensorRow>, outcome: SinkOutcome): State
  {
    var called := s.(calls := s.calls + [SensorSink]);
    match outcome
    case Committed => called.(sensor := s.sensor + rows)
    case RolledBack => called
    case Lost => called.(connUsable := false)
  }

  function AfterStatus(s: State, row: StatusRow, outcome: SinkOutcome): State
  {
    var called := s.(calls := s.calls + [StatusSink]);
    match outcome
    case Committed => called.(status := s.status + [row])
    case RolledBack => called
    case Lost => called.(connUsable := false)
  }

  /** The payload has both `head` and `data`, in Python's sense of `in`. */
  predicate IsEnvelope(json: Json)
  {
    PyIn("head", json) == Some(true) && PyIn("data", json) == Some(true)
  }

  /** A database connection is there, or reconnecting gives one. */
  predicate Connected(s: State, w: World)
  {
    s.connUsable || w.reconnects
  }

  /** The state after `on_message` has handled one message. */
  function Step(s: State, msg: Message, w: World): (t: State)
    ensures s.raw <= t.raw && s.sensor <= t.sensor && s.status <= t.status && s.calls <= t.calls
    ensures |t.raw| <= |s.raw| + 1 && |t.calls| <= |s.calls| + 2
  {
    if msg.text.None? then s
    else if !Connected(s, w) then s
    else
      var s1 := AfterRaw(s.(connUsable := true), RawRow(msg.topic, msg.text.value), w.rawSink);
      if w.rawSink == Lost || w.loads.None? then s1
      else
        var json := w.loads.value;
        if PyIn("head", json).None? then s1
        else if IsEnvelope(json) then
          match Decode(json)
          case None => s1
          case Some(parsed) => AfterSensor(s1, SensorRows(parsed), w.sensorSink)
        else if Text.Contains(msg.topic, "statusInfo") then
          AfterStatus(s1, StatusRow(StationOf(msg.topic), json), w.statusSink)
        else s1
  }

  /** The state after a sequence of messages, handled one after another. */
  function Run(s: State, deliveries: seq<(Message, World)>): State
  {
    if deliveries == [] then s
    else
      var last := deliveries[|deliveries| - 1];
      Step(Run(s, deliveries[..|deliveries| - 1]), last.0, last.1)
  }

  /** The bridge's connection flag and the tables it writes. */
  class Router {
    var connUsable: bool
    var rawLog: seq<RawRow>
    var sensorLog: seq<SensorRow>
    var statusLog: seq<StatusRow>
    var calls: seq<Sink>

    function Snapshot(): State
      reads this
    {
      State(connUsable, rawLog, sensorLog, statusLog, calls)
    }

    constructor (connected: bool)
      ensures Snapshot() == State(connected, [], [], [], [])
    {
      connUsable := connected;
      rawLog, sensorLog, statusLog, calls := [], [], [], [];
    }

    /** `store_message`: insert the raw message; `raised` when the error escapes. */
    method StoreMessage(topic: string, payload: string, outcome: SinkOutcome) returns (raised: bool)
      modifies this
      ensures raised <==> outcome == Lost
      ensures Snapshot() == AfterRaw(old(Snapshot()), RawRow(topic, payload), outcome)
    {
      calls := calls + [RawSink];
      match outcome {
        case Committed => rawLog := rawLog + [RawRow(topic, payload)];
        case RolledBack =>
        case Lost => connUsable := false;
      }
      raised := outcome == Lost;
    }

    /**
      `store_sensor_data`: insert one row per record, in order, then commit
      once, so that either every row of the message is stored or none is.
     */
    method StoreSensorData(parsed: Parsed, outcome: SinkOutcome) returns (raised: bool)
      modifies this
      ensures raised <==> outcome == Lost
      ensures Snapshot() == AfterSensor(old(Snapshot()), SensorRows(parsed), outcome)
    {
      calls := calls + [SensorSink];
      var pending: seq<SensorRow> := [];
      var k := 0;
      while k < |parsed.records|
        invariant 0 <= k <= |parsed.records|
        invariant pending == SensorRows(parsed)[..k]
      {
        var record := parsed.records[k];
        pending := pending + [SensorRow(parsed.station, parsed.table, record.timestamp,
                                        record.recordNumber, record.values)];
        k := k + 1;
      }
      assert pending == SensorRows(parsed);
      match outcome {
        case Committed => sensorLog := sensorLog + pending;
        case RolledBack =>
        case Lost => connUsable := false;
      }
      raised := outcome == Lost;
    }

    /** `store_status_data`: insert the station and the whole status payload. */
    method StoreStatusData(station: string, status: Json, outcome: SinkOutcome) returns (raised: bool)
      modifies this
      ensures raised <==> outcome == Lost
      ensures Snapshot() == AfterStatus(old(Snapshot()), StatusRow(station, status), outcome)
    {
      calls := calls + [StatusSink];
      match outcome {
        case Committed => statusLog := statusLog + [StatusRow(station, status)];
        case RolledBack =>
        case Lost => connUsable := false;
      }
      raised := outcome == Lost;
    }

    /**
      `on_message`. `escaped` is set when an exception leaves the callback:
      only a payload that is not valid UTF-8 does that, because it is decoded
      before the `try`.
     */
    method OnMessage(msg: Message, w: World) returns (escaped: bool)
      modifies this
      ensures escaped <==> msg.text.None?
      ensures Snapshot() == Step(old(Snapshot()), msg, w)
    {
      if msg.text.None? {
        return true;
      }
      escaped := false;
      var text := msg.text.value;
      if !connUsable {
        if !w.reconnects {
          return;
        }
        connUsable := true;
      }
      var raised := StoreMessage(msg.topic, text, w.rawSink);
      if raised || w.loads.None? {
        return;
      }
      var json := w.loads.value;
      var hasHead := PyIn("head", json);
      if hasHead.None? {
        return;
      }
      if hasHead.value && PyIn("data", json) == Some(true) {
        var parsed := ParseCsiJson(json);
        if parsed.Some? {
          raised := StoreSensorData(parsed.value, w.sensorSink);
        }
      } else if Text.Contains(msg.topic, "statusInfo") {
        var station := StationOf(msg.topic);
        raised := StoreStatusData(station, json, w.statusSink);
      }
    }
  }

  // ---------------------------------------------------------------------------
  // The station rule.

  /** For `a/b/c...` with separator-free segments, the station is `c`. */
  lemma StationIsThirdSegment(a: string, b: string, c: string, rest: string)
    requires '/' !in a && '/' !in b && '/' !in c
    requires rest == [] || rest[0] == '/'
    ensures StationOf(a + "/" + b + "/" + c + rest) == c
  {
    var topic := a + "/" + b + "/" + c + rest;
    assert topic == a + ['/'] + (b + ['/'] + (c + rest));
    Text.SplitAfterPart(a, '/', b + ['/'] + (c + rest));
    Text.SplitAfterPart(b, '/', c + rest);
    Text.SplitFirstPart(c, '/', rest);
  }

  /** A topic with fewer than two `/` has the station "unknown". */
  lemma StationUnknownWithoutTwoSlashes(topic: string)
    requires multiset(topic)['/'] < 2
    ensures StationOf(topic) == "unknown"
  {
    Text.SplitCount(topic, '/');
  }

  // ---------------------------------------------------------------------------
  // One message.

  /** Without a usable or restored connection, or without a decodable payload, nothing happens. */
  lemma NothingWithoutConnection(s: State, msg: Message, w: World)
    requires msg.text.None? || !Connected(s, w)
    ensures Step(s, msg, w) == s
  {
  }

  /**
    Each message calls the raw sink at most once and first, then at most one of
    the sensor and status sinks: never both.
   */
  lemma SinkCallsOfOneMessage(s: State, msg: Message, w: World)
    ensures var calls := Step(s, msg, w).calls;
      || calls == s.calls
      || calls == s.calls + [RawSink]
      || calls == s.calls + [RawSink, SensorSink]
      || calls == s.calls + [RawSink, StatusSink]
    ensures |Step(s, msg, w).calls| > |s.calls| <==> msg.text.Some? && Connected(s, w)
  {
  }

  /**
    The raw message is stored verbatim, before any parsing, whenever there is
    a connection, and stays stored whatever happens afterwards.
   */
  lemma RawCapture(s: State, msg: Message, w: World)
    requires msg.text.Some? && Connected(s, w)
    ensures Step(s, msg, w).raw ==
      s.raw + (if w.rawSink == Committed then [RawRow(msg.topic, msg.text.value)] else [])
  {
  }

  /** The four call sequences a message can leave behind are told apart by their tails. */
  lemma CallShapes(c: seq<Sink>)
    ensures (c + [RawSink]) + [SensorSink] == c + [RawSink, SensorSink]
    ensures (c + [RawSink]) + [StatusSink] == c + [RawSink, StatusSink]
    ensures c + [RawSink, SensorSink] != c + [RawSink, StatusSink]
    ensures c + [RawSink] != c + [RawSink, SensorSink] && c != c + [RawSink, SensorSink]
    ensures c + [RawSink] != c + [RawSink, StatusSink] && c != c + [RawSink, StatusSink]
  {
    assert (c + [RawSink, SensorSink])[|c| + 1] == SensorSink;
    assert (c + [RawSink, StatusSink])[|c| + 1] == StatusSink;
  }

  /**
    The sensor sink is called exactly when the JSON payload has `head` and
    `data` and decodes, even to zero records; its rows are the decoded records.
   */
  lemma SensorPath(s: State, msg: Message, w: World)
    ensures var t := Step(s, msg, w);
      (t.calls == s.calls + [RawSink, SensorSink]) <==>
        && msg.text.Some? && Connected(s, w) && w.rawSink != Lost
        && w.loads.Some? && IsEnvelope(w.loads.value) && Decode(w.loads.value).Some?
    ensures var t := Step(s, msg, w);
      t.sensor == s.sensor +
        (if t.calls == s.calls + [RawSink, SensorSink] && w.sensorSink == Committed
         then SensorRows(Decode(w.loads.value).value) else [])
  {
    CallShapes(s.calls);
  }

  /**
    The status sink is called exactly when the JSON payload supports `in`, is
    not an envelope, and the topic contains `statusInfo` anywhere; it stores
    the topic's station and the whole payload.
   */
  lemma StatusPath(s: State, msg: Message, w: World)
    ensures var t := Step(s, msg, w);
      (t.calls == s.calls + [RawSink, StatusSink]) <==>
        && msg.text.Some? && Connected(s, w) && w.rawSink != Lost
        && w.loads.Some? && PyIn("head", w.loads.value).Some? && !IsEnvelope(w.loads.value)
        && Text.Contains(msg.topic, "statusInfo")
    ensures var t := Step(s, msg, w);
      t.status == s.status +
        (if t.calls == s.calls + [RawSink, StatusSink] && w.statusSink == Committed
         then [StatusRow(StationOf(msg.topic), w.loads.value)] else [])
  {
    CallShapes(s.calls);
  }

  /** An envelope never reaches the status sink, whatever its topic and however it decodes. */
  lemma EnvelopeNeverStatus(s: State, msg: Message, w: World)
    requires w.loads.Some? && w.loads.value.Obj?
    requires "head" in w.loads.value.members && "data" in w.loads.value.members
    ensures Step(s, msg, w).status == s.status
    ensures Step(s, msg, w).calls != s.calls + [RawSink, StatusSink]
  {
    StatusPath(s, msg, w);
  }

  /** A payload that is not JSON is only stored raw. */
  lemma NonJsonOnlyRaw(s: State, msg: Message, w: World)
    requires w.loads.None?
    ensures var t := Step(s, msg, w);
      t.sensor == s.sensor && t.status == s.status &&
      (t.calls == s.calls || t.calls == s.calls + [RawSink])
  {
  }

  // ---------------------------------------------------------------------------
  // Many messages.

  /** Every derived-data sink call comes right after a raw sink call. */
  ghost predicate RawPrecedesDerived(calls: seq<Sink>)
  {
    forall k | 0 <= k < |calls| && calls[k] != RawSink :: k > 0 && calls[k - 1] == RawSink
  }

  /** The tables only grow, and the raw table by at most one row per message. */
  lemma {:induction false} RunAppendOnly(s: State, deliveries: seq<(Message, World)>)
    ensures var t := Run(s, deliveries);
      && s.raw <= t.raw && s.sensor <= t.sensor && s.status <= t.status && s.calls <= t.calls
      && |t.raw| <= |s.raw| + |deliveries|
    decreases |deliveries|
  {
    if deliveries != [] {
      var last := deliveries[|deliveries| - 1];
      RunAppendOnly(s, deliveries[..|deliveries| - 1]);
      var mid := Run(s, deliveries[..|deliveries| - 1]);
      SinkCallsOfOneMessage(mid, last.0, last.1);
    }
  }

  /** Over any run, derived data is only ever stored right after its raw capture was attempted. */
  lemma {:induction false} RunKeepsRawFirst(s: State, deliveries: seq<(Message, World)>)
    requires RawPrecedesDerived(s.calls)
    ensures RawPrecedesDerived(Run(s, deliveries).calls)
    decreases |deliveries|
  {
    if deliveries != [] {
      var last := deliveries[|deliveries| - 1];
      RunKeepsRawFirst(s, deliveries[..|deliveries| - 1]);
      var mid := Run(s, deliveries[..|deliveries| - 1]);
      SinkCallsOfOneMessage(mid, last.0, last.1);
    }
  }
}
