# MQTT-to-PostgreSQL bridge: decoder and message router

A Dafny model of the ingestion core of a bridge that subscribes to MQTT topics
published by Campbell Scientific CR6 dataloggers and writes what it receives
into PostgreSQL. Two parts are modelled.

- **The CSIJSON decoder** (`parse_csijson`). It takes an already-parsed JSON value in
  Campbell Scientific's tabular envelope (`head.environment`, `head.fields`, `data`).
  It produces either `None` or the station and table names, the echoed
  environment and field list, and one record per data row with `timestamp`,
  `record_number` and a `values` map. `CsiJson.Decode` is the specification.
  It is a total function that gives `None` wherever the Python code returns
  `None`, including every place where Python raises inside the function and its own
  handler turns the exception into `None`: a `head` or `environment` that is not a dict,
  a row that is a number, a dict row with two or more keys, a field list that cannot be sliced,
  a reached field without a hashable `name`. `CsiJson.ParseCsiJson` is the
  decoder as written, with its row loop and field loop, proved equal to `Decode`.
- **The router** (`on_message`) and its three sinks. `Bridge.Router` is a class
  with these fields:
  - the connection flag;
  - the three tables as append-only logs (`mqtt_messages`, `cr6_sensor_data`,
    `cr6_status`);
  - a trace of sink calls.

  Its methods are proved against the state function `Bridge.Step`. The
  lemmas about `Step` and `Run` state which logs grow, by how much, in what
  order and on which branch. Whatever the environment decides is an input,
  `Bridge.World`:
  - whether reconnecting works;
  - what `json.loads` returns;
  - how each sink call ends.

  A sink call is `Committed`, `RolledBack` (processing goes on), or `Lost`. `Lost`
  means the connection dropped: psycopg2 marks it closed and the `rollback()` in
  the sink's handler raises again. That exception reaches the router's
  catch-all, which ends the message, and the next message reconnects.

Modules: `Wrappers` (Option), `Text` (Python's `in` on str, `str.split`,
`str.join`), `JsonValues` (decoded JSON values, `in` and `dict.get` on them),
`CsiJson` (the decoder), `Bridge` (the router, its sinks and the station rule),
`Scenarios` (worked messages).

Behaviour of the code that is easy to misread; the model follows the code:

- A field descriptor without a `name` that some row reaches fails the whole decode, because the
  KeyError is caught by the function-wide handler. It is not skipped
  (`CsiJson.NamelessFieldFailsDecode`).
- The status path is chosen when `statusInfo` is a substring of the topic
  anywhere (`'statusInfo' in topic`), not when it is a path segment.
- A row with more cells than there are descriptors yields `min(len(fields), len(row)) - 2`
  values, or none when that is negative, and only when the names are distinct. A later duplicate name overwrites
  an earlier one (`CsiJson.ValuesSize`, `CsiJson.ValuesLastWins`).
- The sensor sink is called for every decoded envelope, even one with zero
  records (`Bridge.SensorPath`).
- A payload that is not valid UTF-8 raises out of `on_message`, because it is
  decoded before the `try` (line 319): the router does not catch every error.
  `Bridge.Router.OnMessage` reports this as `escaped` and changes nothing.
- Without a database connection, and when reconnecting fails, the message is not
  stored at all, not even raw (`Bridge.NothingWithoutConnection`).

## Model

| member | source | states |
|---|---|---|
| `Text.Contains` | mqtt_to_postgres.py:345 | definition: Python's `needle in haystack` on str as a recursive prefix test; its meaning is stated by `Text.ContainsIff` |
| `Text.Split` | mqtt_to_postgres.py:346 | definition of `topic.split('/')`; its contract says there is always at least one part, and `Text.SplitJoin`, `Text.SplitPartsFree` and `Text.SplitCount` state what the parts are |
| `Text.ContainsIff` | mqtt_to_postgres.py:345 | Python's `needle in haystack` on str holds exactly when the needle occurs at some index of the haystack |
| `Text.SplitJoin` | mqtt_to_postgres.py:346 | joining the parts of `topic.split('/')` with `/` gives the topic back |
| `Text.SplitPartsFree` | mqtt_to_postgres.py:346 | no part of `split('/')` contains `/` |
| `Text.SplitCount` | mqtt_to_postgres.py:346 | `split('/')` has one part more than the topic has `/` characters |
| `Text.SplitAfterPart` | mqtt_to_postgres.py:346 | a separator-free first segment followed by `/` splits off as its own part |
| `Text.SplitFirstPart` | mqtt_to_postgres.py:346 | a separator-free segment ending the string or followed by `/` is the first part |
| `JsonValues.PyIn` | mqtt_to_postgres.py:139 | `key in value` is defined exactly on dicts, lists and strs (elsewhere TypeError) and on a dict is key membership |
| `JsonValues.Get` | mqtt_to_postgres.py:145-149 | definition of `dict.get(key, default)`: the member when present, the default otherwise; its contract is its one-line body |
| `JsonValues.Chars` | mqtt_to_postgres.py:160 | definition of iterating a str: its characters as one-character strs, as many as its length; its contract is its body |
| `CsiJson.ShapeOf` | mqtt_to_postgres.py:160-166 | definition of how the row loop treats one element of `data` (record, skipped, or raising); its contract, at least two cells for a record, is one conjunct of its body |
| `CsiJson.FieldList` | mqtt_to_postgres.py:169 | definition of `fields[2:]`: succeeds on a list or a str, raises otherwise; its body is its specification |
| `CsiJson.FieldName` | mqtt_to_postgres.py:171 | definition of `field['name']` used as a dict key; its contract, a hashable name, is one conjunct of its body |
| `CsiJson.ValuesUpTo` | mqtt_to_postgres.py:169-171 | definition of the `values` map after the field loop has visited a prefix of the fields; its body is its specification, and `CsiJson.ValuesFailIff`, `CsiJson.ValuesKeys` and `CsiJson.ValuesLastWins` state what it holds |
| `CsiJson.DecodeRow` | mqtt_to_postgres.py:161-171 | a record's timestamp is `row[0]` and its record number `row[1]`; the row decodes exactly when the field list can be sliced and the field loop succeeds |
| `CsiJson.DecodeRows` | mqtt_to_postgres.py:160-173 | defining function of the row loop over a list of rows; its contract says there are never more records than rows, and `CsiJson.RecordsFollowRows` states which records there are |
| `CsiJson.DecodeData` | mqtt_to_postgres.py:160 | defining function of `for row in data_rows` over a list, a str or a dict; its body is its specification (the dict case is narrowed under "Left out") |
| `CsiJson.Decode` | mqtt_to_postgres.py:128-179 | a result exists only for a dict with `head` and `data` whose head and environment are dicts; environment and fields are echoed; station and table default to "unknown" |
| `CsiJson.MapFields` | mqtt_to_postgres.py:169-171 | the field loop, which touches only fields whose index is below the row length, computes the values of `ValuesUpTo` |
| `CsiJson.RecordLoop` | mqtt_to_postgres.py:160-173 | the row loop computes exactly the records of `DecodeRows`, or `None` when a row raises |
| `CsiJson.ParseCsiJson` | mqtt_to_postgres.py:128-179 | the loop-based decoder returns exactly `Decode(payload)` |
| `CsiJson.ValuesNoneStays` | mqtt_to_postgres.py:169-179 | once a visited field has no usable name, the field loop fails whatever follows |
| `CsiJson.ValuesFailIff` | mqtt_to_postgres.py:169-179 | the field loop fails if and only if some visited field (2 <= i < reach) has no usable name |
| `CsiJson.ValuesKeys` | mqtt_to_postgres.py:169-171 | the values map's keys are exactly the names of fields 2 .. min(len(fields), len(row)) - 1 |
| `CsiJson.ValuesLastWins` | mqtt_to_postgres.py:171 | each name maps to the cell of the last visited field carrying that name |
| `CsiJson.ValuesSize` | mqtt_to_postgres.py:169-171 | with distinct names the map has max(0, min(len(fields), len(row)) - 2) entries |
| `CsiJson.ValuesIgnoreUnvisited` | mqtt_to_postgres.py:169-170 | fields at or beyond the row length do not affect the values map |
| `CsiJson.RowsAppend` | mqtt_to_postgres.py:160-173 | the records of two row lists concatenated are the two record lists concatenated; a failing row fails the whole |
| `CsiJson.RowsNoneStays` | mqtt_to_postgres.py:160-179 | an exception in any row makes the whole decode `None` |
| `CsiJson.ShortRowDropped` | mqtt_to_postgres.py:161 | inserting a row shorter than 2 anywhere changes no record |
| `CsiJson.UsableIndices` | mqtt_to_postgres.py:160-161 | lists, in increasing order, exactly the indices of the rows with at least two cells |
| `CsiJson.RecordsFollowRows` | mqtt_to_postgres.py:160-173 | records correspond one-to-one and in order to the rows with at least two cells |
| `CsiJson.StringDataHasNoRecords` | mqtt_to_postgres.py:160-161 | a `data` that is a str yields no records and no error |
| `CsiJson.NamelessFieldFailsDecode` | mqtt_to_postgres.py:169-179 | a nameless field at an index some row reaches makes the whole decode `None` |
| `CsiJson.UnreachedFieldsIgnored` | mqtt_to_postgres.py:169-170 | descriptors beyond the longest row are never inspected |
| `CsiJson.MissingEnvironmentDefaults` | mqtt_to_postgres.py:145-149 | a head without `environment` decodes exactly when its `data` decodes, and then with environment `{}` and station and table "unknown" |
| `Bridge.StationOf` | mqtt_to_postgres.py:346 | defining function of the status station, the third `/`-separated segment or "unknown"; its contract says the station never contains `/` |
| `Bridge.AfterRaw` | mqtt_to_postgres.py:182-203 | defining function of how one `store_message` call ends: the trace gains the call, the raw log the row on commit, and the connection is flagged unusable when lost; its body is its specification |
| `Bridge.AfterSensor` | mqtt_to_postgres.py:206-244 | defining function of how one `store_sensor_data` call ends: all rows on commit, none otherwise; its body is its specification |
| `Bridge.AfterStatus` | mqtt_to_postgres.py:247-271 | defining function of how one `store_status_data` call ends: one row on commit, none otherwise; its body is its specification |
| `Bridge.IsEnvelope` | mqtt_to_postgres.py:339 | defining predicate of `'head' in payload and 'data' in payload`, with Python's `in`; its body is its specification |
| `Bridge.Connected` | mqtt_to_postgres.py:324-329 | defining predicate of "a connection exists or reconnecting gives one"; its body is its specification |
| `Bridge.Step` | mqtt_to_postgres.py:307-352 | defining function of `on_message` on the state; its contract says one message only appends to every log, at most one raw row and at most two sink calls; the branch lemmas below state the rest |
| `Bridge.SensorRows` | mqtt_to_postgres.py:221-235 | one sensor row per record |
| `Bridge.Router.constructor` | mqtt_to_postgres.py:43-44 | the bridge starts with empty tables and the given connection state |
| `Bridge.Router.StoreMessage` | mqtt_to_postgres.py:182-203 | appends the raw row on commit, leaves the table unchanged on rollback, flags the connection and raises when it was lost |
| `Bridge.Router.StoreSensorData` | mqtt_to_postgres.py:206-244 | inserts every record in order under one commit: all rows or none (for `psycopg2.Error` failures) |
| `Bridge.Router.StoreStatusData` | mqtt_to_postgres.py:247-271 | appends one status row with the station and the whole payload on commit, nothing otherwise |
| `Bridge.Router.OnMessage` | mqtt_to_postgres.py:307-352 | performs exactly `Step`; an exception escapes only for a payload that is not UTF-8 |
| `Bridge.StationIsThirdSegment` | mqtt_to_postgres.py:346 | for `a/b/c...` the status station is `c` |
| `Bridge.StationUnknownWithoutTwoSlashes` | mqtt_to_postgres.py:346 | a topic with fewer than 3 segments gets the station "unknown" |
| `Bridge.NothingWithoutConnection` | mqtt_to_postgres.py:319-329 | with no connection and a failed reconnect, or an undecodable payload, no sink is called and nothing changes |
| `Bridge.SinkCallsOfOneMessage` | mqtt_to_postgres.py:331-347 | a message calls the raw sink at most once and first, then at most one of sensor or status, never both |
| `Bridge.RawCapture` | mqtt_to_postgres.py:333 | with a connection, the verbatim topic and payload are appended exactly when the raw insert commits, whatever follows |
| `Bridge.SensorPath` | mqtt_to_postgres.py:339-342 | the sensor sink is called if and only if the JSON payload has `head` and `data` and decodes (even to zero records); it appends the decoded rows on commit |
| `Bridge.StatusPath` | mqtt_to_postgres.py:344-347 | the status sink is called if and only if the payload is not an envelope and `statusInfo` is a substring of the topic; it appends the topic's station and the whole payload on commit |
| `Bridge.EnvelopeNeverStatus` | mqtt_to_postgres.py:339-347 | a dict payload with `head` and `data` never reaches the status sink, whatever the topic |
| `Bridge.NonJsonOnlyRaw` | mqtt_to_postgres.py:336-350 | a payload that is not JSON is stored only raw |
| `Bridge.RunAppendOnly` | mqtt_to_postgres.py:307-352 | over any sequence of messages the tables only grow, the raw table by at most one row per message |
| `Bridge.RunKeepsRawFirst` | mqtt_to_postgres.py:331-347 | over any sequence of messages every derived-data sink call comes right after a raw sink call |
| `Scenarios.TableMessageStored` | mqtt_to_postgres.py:339-342 | a one-row Five_Min envelope gives one raw row and one sensor row `{Temp_C_Avg: 21.5}` for ST1 |
| `Scenarios.SensorRollbackKeepsRaw` | mqtt_to_postgres.py:240-242 | a rolled-back sensor insert leaves the committed raw row and no sensor row |
| `Scenarios.StatusTopicStation` | mqtt_to_postgres.py:346 | the topic `cs/v1/<station>/statusInfo` names `<station>` |
| `Scenarios.StatusTopicContains` | mqtt_to_postgres.py:345 | the topic `cs/v1/<station>/statusInfo` contains `statusInfo` |
| `Scenarios.StatusMessageStored` | mqtt_to_postgres.py:344-347 | a status dict on `cs/v1/<station>/statusInfo` gives one raw row and one status row for that station |
| `Scenarios.NonJsonMessage` | mqtt_to_postgres.py:349-350 | a non-JSON payload, in a world where the raw insert commits, gives one raw row and nothing else; the raw row exists only because the world commits it |
| `Scenarios.NonJsonRejected` | mqtt_to_postgres.py:349-350 | the same payload with the raw insert rolled back, as the JSONB column would do: one raw sink call and no table changes |

## Left out

- Database connection setup, table creation, the MQTT client callbacks `on_connect` and `on_disconnect`, `main`, logging and
  environment-variable configuration (mqtt_to_postgres.py:19-125, 274-305,
  355-399): process bootstrap and I/O. Reconnection is the boolean `World.reconnects`.
- SQL text, cursors and `execute_values`. How a sink call ends is an input.
  So the model does not derive a failure from the data. For example, the raw
  table's JSONB column would reject a payload that is not JSON, and psycopg2
  cannot adapt a dict given as a station name.
- Bridge.Router.StoreSensorData, Bridge.AfterSensor: only `psycopg2.Error` is caught by the sink
  (mqtt_to_postgres.py:239-241). Another exception during the insert loop (221-235), such as the
  `ValueError` psycopg2 raises for a str holding NUL, leaves the sink with the transaction open.
  The rows inserted before it stay pending, and the next commit on the connection stores them,
  normally the next message's raw insert. The model treats every sink failure as a rollback or a
  lost connection, so it has no pending rows.
- `json.loads`, `json.dumps` and the UTF-8 decode are foreign calls. Each is an input or is left opaque:
  `World.loads` is not tied to the payload text, and values are stored as
  maps rather than as their JSON text.
- Numbers are kept as their literal text. So Python's equality of `1`, `1.0` and `True`
  as dict keys is not modelled: such names count as distinct keys here.
- CsiJson.DecodeData: a `data` that is a dict is iterated by Python over its keys
  in document order, which `map<string, Json>` does not keep. The model decodes it only when every
  key is shorter than two characters (no records). Otherwise it gives `None` where
  Python would build records from the keys' characters.
- What the MQTT client does with an exception that escapes `on_message`.
  Callback threading: messages are handled one at a time.
- The traffic simulator (test_cr6_simulator.py): it uses random values, the clock and the network. Its
  message shape is the one used in `Scenarios`.
