/**
  Worked messages through the router, starting from a fresh connection and
  empty tables: a data-table envelope, a status message, a payload that is
  not JSON, and an envelope whose sensor insert is rolled back.
 */
module Scenarios {
  import opened Wrappers
  import opened JsonValues
  import Text
  import opened CsiJson
  import opened Bridge

  const Fresh := State(true, [], [], [], [])

  const TableTopic := "cs/v1/ST1/datatables/Five_Min"

  const TableText :=
    "{\"head\":{\"environment\":{\"station_name\":\"ST1\",\"table_name\":\"Five_Min\"},"
    + "\"fields\":[{\"name\":\"TIMESTAMP\"},{\"name\":\"RECORD\"},{\"name\":\"Temp_C_Avg\"}]},"
    + "\"data\":[[\"2024-01-01T00:00:00\",1,21.5]]}"

  /** What `json.loads` gives for `TableText`. */
  const TableJson := Obj(map[
    "head" := Obj(map[
      "environment" := Obj(map["station_name" := Str("ST1"), "table_name" := Str("Five_Min")]),
      "fields" := Arr([
        Obj(map["name" := Str("TIMESTAMP")]),
        Obj(map["name" := Str("RECORD")]),
        Obj(map["name" := Str("Temp_C_Avg")])])]),
    "data" := Arr([Arr([Str("2024-01-01T00:00:00"), Num("1"), Num("21.5")])])])

  const TableRow := SensorRow(Str("ST1"), Str("Five_Min"), Str("2024-01-01T00:00:00"), Num("1"),
                              map[Str("Temp_C_Avg") := Num("21.5")])

  /** A five-minute table message: one raw row, then one sensor row with one named value. */
  lemma TableMessageStored()
    ensures Step(Fresh, Message(TableTopic, Some(TableText)),
                 World(false, Some(TableJson), Committed, Committed, Committed))
         == State(true, [RawRow(TableTopic, TableText)], [TableRow], [], [RawSink, SensorSink])
  {
    var head := TableJson.members["head"];
    var fields := head.members["fields"];
    var row := [Str("2024-01-01T00:00:00"), Num("1"), Num("21.5")];
    assert ValuesUpTo(fields.items, row, 3) == Some(map[Str("Temp_C_Avg") := Num("21.5")]);
    assert [Arr(row)][..0] == [];
    assert ShapeOf(Arr(row)) == Cells(row);
    assert DecodeRow(fields, row) == Some(Record(row[0], row[1], map[Str("Temp_C_Avg") := Num("21.5")]));
    var record := Record(row[0], row[1], map[Str("Temp_C_Avg") := Num("21.5")]);
    assert [] + [record] == [record];
    assert DecodeRows(fields, [Arr(row)]) == Some([Record(row[0], row[1], map[Str("Temp_C_Avg") := Num("21.5")])]);
  }

  /** A rolled-back sensor insert leaves the raw row committed and no sensor row. */
  lemma SensorRollbackKeepsRaw()
    ensures Step(Fresh, Message(TableTopic, Some(TableText)),
                 World(false, Some(TableJson), Committed, RolledBack, Committed))
         == State(true, [RawRow(TableTopic, TableText)], [], [], [RawSink, SensorSink])
  {
    TableMessageStored();
  }

  /** `cs/v1/<station>/statusInfo` names the station. */
  lemma StatusTopicStation(station: string)
    requires '/' !in station
    ensures StationOf("cs/v1/" + station + "/statusInfo") == station
  {
    assert "cs/v1/" + station + "/statusInfo" == "cs" + "/" + "v1" + "/" + station + "/statusInfo";
    StationIsThirdSegment("cs", "v1", station, "/statusInfo");
  }

  /** `cs/v1/<station>/statusInfo` contains `statusInfo`. */
  lemma StatusTopicContains(station: string)
    ensures Text.Contains("cs/v1/" + station + "/statusInfo", "statusInfo")
  {
    var prefix := "cs/v1/" + station + "/";
    var topic := prefix + "statusInfo";
    assert topic == "cs/v1/" + station + "/statusInfo";
    assert topic[|prefix|..|prefix| + |"statusInfo"|] == "statusInfo";
    assert Text.OccursAt(topic, "statusInfo", |prefix|);
    Text.ContainsIff(topic, "statusInfo");
  }

  /**
    A status message on `cs/v1/<station>/statusInfo` whose payload is a JSON
    object without `head`: one raw row, then one status row for that station
    holding the whole payload.
   */
  lemma StatusMessageStored(station: string, text: string, status: map<string, Json>)
    requires '/' !in station && "head" !in status
    ensures var topic := "cs/v1/" + station + "/statusInfo";
      Step(Fresh, Message(topic, Some(text)),
           World(false, Some(Obj(status)), Committed, Committed, Committed))
      == State(true, [RawRow(topic, text)], [], [StatusRow(station, Obj(status))], [RawSink, StatusSink])
  {
    StatusTopicStation(station);
    StatusTopicContains(station);
  }

  /**
    A payload that is not JSON, in a world where the raw insert commits: one raw
    row and nothing else. The raw row exists only because the world commits it;
    the real table's JSONB column would reject this text (see `NonJsonRejected`).
   */
  lemma NonJsonMessage()
    ensures Step(Fresh, Message("some/topic", Some("not json")),
                 World(false, None, Committed, Committed, Committed))
         == State(true, [RawRow("some/topic", "not json")], [], [], [RawSink])
  {
  }

  /** The same payload when the raw insert is rolled back: the sink is called and no table changes. */
  lemma NonJsonRejected()
    ensures Step(Fresh, Message("some/topic", Some("not json")),
                 World(false, None, RolledBack, Committed, Committed))
         == State(true, [], [], [], [RawSink])
  {
  }
}
