/**
  The decoder for Campbell Scientific's tabular JSON envelope (CSIJSON):
  `{"head": {"environment": {...}, "fields": [{"name": ...}, ...]}, "data": [[...], ...]}`.

  `Decode` is the specification: a total function that gives `None` wherever
  the Python decoder returns `None`, including every place where it raises
  and its own handler turns the exception into `None`. `ParseCsiJson` is the
  decoder as written, with its two loops, proved equal to `Decode`.
 */
module CsiJson {
  import opened Wrappers
  import opened JsonValues

  /** One decoded row: the first two cells and the named measurements. */
  datatype Record = Record(timestamp: Json, recordNumber: Json, values: map<Json, Json>)

  /** The decoded envelope, with the environment and field list echoed unchanged. */
  datatype Parsed = Parsed(
    station: Json,
    table: Json,
    environment: Json,
    fields: Json,
    records: seq<Record>)

  /** How the row loop treats one element of `data`. */
  datatype RowShape =
    | Cells(cells: seq<Json>)  // `len(row) >= 2` and `row[i]` works: a record is built
    | Short                    // `len(row) < 2`: skipped
    | Broken                   // `len(row)` or `row[0]` raises: the whole decode fails

  function ShapeOf(row: Json): (shape: RowShape)
    ensures shape.Cells? ==> |shape.cells| >= 2
  {
    match row
    case Arr(items) => if |items| >= 2 then Cells(items) else Short
    case Str(s) => if |s| >= 2 then Cells(Chars(s)) else Short
    // A dict's keys are strings, so `row[0]` raises KeyError.
    case Obj(m) => if |m| >= 2 then Broken else Short
    // `len()` of a number, a boolean or null raises TypeError.
    case _ => Broken
  }

  /** `fields[2:]` succeeds on a list or a str; on anything else slicing raises. */
  function FieldList(fields: Json): Option<seq<Json>>
  {
    match fields
    case Arr(items) => Some(items)
    case Str(s) => Some(Chars(s))
    case _ => None
  }

  /**
    `field['name']` used as a dict key: it succeeds only on a dict that has the
    key, and only when the name is hashable.
   */
  function FieldName(field: Json): (name: Option<Json>)
    ensures name.Some? ==> Hashable(name.value)
  {
    if field.Obj? && "name" in field.members && Hashable(field.members["name"])
    then Some(field.members["name"])
    else None
  }

  function Min(a: nat, b: nat): nat
  {
    if a <= b then a else b
  }

  /**
    The `values` map after the field loop has visited indices 2 .. n-1, in
    increasing order; `None` once a visited field has no usable name.
   */
  function ValuesUpTo(fs: seq<Json>, cells: seq<Json>, n: nat): Option<map<Json, Json>>
    requires n <= |fs| && n <= |cells|
  {
    if n <= 2 then Some(map[])
    else
      match ValuesUpTo(fs, cells, n - 1)
      case None => None
      case Some(m) =>
        match FieldName(fs[n - 1])
        case None => None
        case Some(key) => Some(m[key := cells[n - 1]])
  }

  /** The record built from a row with at least two cells. */
  function DecodeRow(fields: Json, cells: seq<Json>): (r: Option<Record>)
    requires |cells| >= 2
    ensures r.Some? ==> r.value.timestamp == cells[0] && r.value.recordNumber == cells[1]
    ensures r.Some? <==>
      FieldList(fields).Some? &&
      ValuesUpTo(FieldList(fields).value, cells, Min(|FieldList(fields).value|, |cells|)).Some?
  {
    match FieldList(fields)
    case None => None
    case Some(fs) =>
      match ValuesUpTo(fs, cells, Min(|fs|, |cells|))
      case None => None
      case Some(values) => Some(Record(cells[0], cells[1], values))
  }

  /** The records of `rows`, taken in order; `None` if any row makes Python raise. */
  function DecodeRows(fields: Json, rows: seq<Json>): (r: Option<seq<Record>>)
    ensures r.Some? ==> |r.value| <= |rows|
  {
    if rows == [] then Some([])
    else
      match DecodeRows(fields, rows[..|rows| - 1])
      case None => None
      case Some(prefix) =>
        match ShapeOf(rows[|rows| - 1])
        case Short => Some(prefix)
        case Broken => None
        case Cells(cells) =>
          match DecodeRow(fields, cells)
          case None => None
          case Some(r) => Some(prefix + [r])
  }

  /**
    The records of `data` as `for row in data_rows` sees it. A str iterates as
    its characters. A dict iterates as its keys in document order, which a
    `map` does not keep: only a dict whose keys are all shorter than two
    characters (so every row is skipped) is decoded.
   */
  function DecodeData(fields: Json, data: Json): Option<seq<Record>>
  {
    match data
    case Arr(rows) => DecodeRows(fields, rows)
    case Str(s) => DecodeRows(fields, Chars(s))
    case Obj(m) => if forall k | k in m :: |k| < 2 then Some([]) else None
    case _ => None
  }

  /** The whole decoder: `parse_csijson` applied to an already-parsed JSON value. */
  function Decode(payload: Json): (r: Option<Parsed>)
    ensures r.Some? ==>
      && payload.Obj? && "head" in payload.members && "data" in payload.members
      && payload.members["head"].Obj?
      && r.value.environment.Obj?
    ensures r.Some? ==>
      var head := payload.members["head"].members;
      && r.value.environment == Get(head, "environment", Obj(map[]))
      && r.value.fields == Get(head, "fields", Arr([]))
      && r.value.station == Get(r.value.environment.members, "station_name", Str("unknown"))
      && r.value.table == Get(r.value.environment.members, "table_name", Str("unknown"))
  {
    if !payload.Obj? || "head" !in payload.members || "data" !in payload.members then None
    else
      var head := payload.members["head"];
      if !head.Obj? then None
      else
        var environment := Get(head.members, "environment", Obj(map[]));
        var fields := Get(head.members, "fields", Arr([]));
        if !environment.Obj? then None
        else
          var station := Get(environment.members, "station_name", Str("unknown"));
          var table := Get(environment.members, "table_name", Str("unknown"));
          match DecodeData(fields, payload.members["data"])
          case None => None
          case Some(records) => Some(Parsed(station, table, environment, fields, records))
  }

  // ---------------------------------------------------------------------------
  // The decoder as written: two nested loops.

  /** The field loop for one row: `for i, field in enumerate(fields[2:], start=2)`. */
  method MapFields(fs: seq<Json>, cells: seq<Json>) returns (values: Option<map<Json, Json>>)
    ensures values == ValuesUpTo(fs, cells, Min(|fs|, |cells|))
  {
    var m: map<Json, Json> := map[];
    var i := 2;
    while i < |fs|
      invariant 2 <= i
      invariant i <= |fs| || i == 2
      invariant ValuesUpTo(fs, cells, Min(Min(i, |fs|), |cells|)) == Some(m)
    {
      if i < |cells| {
        var name := FieldName(fs[i]);
        if name.None? {
          ValuesNoneStays(fs, cells, i + 1, Min(|fs|, |cells|));
          return None;
        }
        m := m[name.value := cells[i]];
      }
      i := i + 1;
    }
    return Some(m);
  }

  /** `parse_csijson`: the record loop over `data`, then the echoed envelope. */
  method ParseCsiJson(payload: Json) returns (r: Option<Parsed>)
    ensures r == Decode(payload)
  {
    if !payload.Obj? || "head" !in payload.members || "data" !in payload.members {
      return None;
    }
    var head := payload.members["head"];
    if !head.Obj? {
      return None;
    }
    var environment := Get(head.members, "environment", Obj(map[]));
    var fields := Get(head.members, "fields", Arr([]));
    if !environment.Obj? {
      return None;
    }
    var station := Get(environment.members, "station_name", Str("unknown"));
    var table := Get(environment.members, "table_name", Str("unknown"));

    var records: Option<seq<Record>>;
    match payload.members["data"] {
      case Arr(rows) => records := RecordLoop(fields, rows);
      case Str(s) => records := RecordLoop(fields, Chars(s));
      case Obj(m) =>
        if forall k | k in m :: |k| < 2 {
          records := Some([]);
        } else {
          records := None;
        }
      case _ => records := None;
    }
    if records.None? {
      return None;
    }
    return Some(Parsed(station, table, environment, fields, records.value));
  }

  /** The row loop: `for row in data_rows`, appending one record per row of two or more cells. */
  method RecordLoop(fields: Json, rows: seq<Json>) returns (result: Option<seq<Record>>)
    ensures result == DecodeRows(fields, rows)
  {
    var records: seq<Record> := [];
    var i := 0;
    while i < |rows|
      invariant 0 <= i <= |rows|
      invariant DecodeRows(fields, rows[..i]) == Some(records)
    {
      assert rows[..i + 1][..i] == rows[..i];
      match ShapeOf(rows[i]) {
        case Short =>
        case Broken =>
          RowsNoneStays(fields, rows, i + 1);
          return None;
        case Cells(cells) =>
          var fs := FieldList(fields);
          if fs.None? {
            RowsNoneStays(fields, rows, i + 1);
            return None;
          }
          var values := MapFields(fs.value, cells);
          if values.None? {
            RowsNoneStays(fields, rows, i + 1);
            return None;
          }
          records := records + [Record(cells[0], cells[1], values.value)];
      }
      i := i + 1;
    }
    assert rows[..|rows|] == rows;
    return Some(records);
  }

  // ---------------------------------------------------------------------------
  // The field loop.

  /** A nameless field, once reached, stays fatal however many fields follow. */
  lemma {:induction false} ValuesNoneStays(fs: seq<Json>, cells: seq<Json>, n: nat, n': nat)
    requires n <= n' <= |fs| && n' <= |cells|
    requires ValuesUpTo(fs, cells, n).None?
    ensures ValuesUpTo(fs, cells, n').None?
    decreases n'
  {
    if n' > n {
      ValuesNoneStays(fs, cells, n, n' - 1);
    }
  }

  /** Field `i` is the last of the visited fields 2 .. n-1 with its name. */
  ghost predicate LastNamed(fs: seq<Json>, n: nat, i: nat)
    requires n <= |fs|
  {
    2 <= i < n && FieldName(fs[i]).Some? &&
    forall j | i < j < n :: FieldName(fs[j]) != FieldName(fs[i])
  }

  /** The field loop fails exactly when some visited field has no usable name. */
  lemma {:induction false} ValuesFailIff(fs: seq<Json>, cells: seq<Json>, n: nat)
    requires n <= |fs| && n <= |cells|
    ensures ValuesUpTo(fs, cells, n).None? <==> exists i :: 2 <= i < n && FieldName(fs[i]).None?
    decreases n
  {
    if n > 2 {
      ValuesFailIff(fs, cells, n - 1);
    }
  }

  /** The values map holds exactly the names of the visited fields. */
  lemma {:induction false} ValuesKeys(fs: seq<Json>, cells: seq<Json>, n: nat, m: map<Json, Json>)
    requires n <= |fs| && n <= |cells|
    requires ValuesUpTo(fs, cells, n) == Some(m)
    ensures forall key :: key in m <==> exists i :: 2 <= i < n && FieldName(fs[i]) == Some(key)
    decreases n
  {
    if n > 2 {
      var m' := ValuesUpTo(fs, cells, n - 1).value;
      var key := FieldName(fs[n - 1]).value;
      assert m == m'[key := cells[n - 1]];
      ValuesKeys(fs, cells, n - 1, m');
      forall k
        ensures k in m <==> exists i :: 2 <= i < n && FieldName(fs[i]) == Some(k)
      {
        if k in m' {
          var i :| 2 <= i < n - 1 && FieldName(fs[i]) == Some(k);
          assert 2 <= i < n && FieldName(fs[i]) == Some(k);
        }
        if k == key {
          assert FieldName(fs[n - 1]) == Some(k);
        }
      }
    }
  }

  /**
    Under each name the map holds the cell of the last visited field with that
    name: fields are assigned in increasing index, so a later duplicate overwrites.
   */
  lemma {:induction false} ValuesLastWins(fs: seq<Json>, cells: seq<Json>, n: nat, m: map<Json, Json>)
    requires n <= |fs| && n <= |cells|
    requires ValuesUpTo(fs, cells, n) == Some(m)
    ensures forall i: nat | LastNamed(fs, n, i) :: FieldName(fs[i]).value in m && m[FieldName(fs[i]).value] == cells[i]
    decreases n
  {
    if n > 2 {
      var m' := ValuesUpTo(fs, cells, n - 1).value;
      var key := FieldName(fs[n - 1]).value;
      assert m == m'[key := cells[n - 1]];
      ValuesLastWins(fs, cells, n - 1, m');
      forall i: nat | LastNamed(fs, n, i)
        ensures FieldName(fs[i]).value in m && m[FieldName(fs[i]).value] == cells[i]
      {
        if i < n - 1 {
          assert LastNamed(fs, n - 1, i);
        }
      }
    }
  }

  /**
    With pairwise distinct names the map has one entry per visited field,
    `max(0, n - 2)` of them.
   */
  lemma {:induction false} ValuesSize(fs: seq<Json>, cells: seq<Json>, n: nat, m: map<Json, Json>)
    requires n <= |fs| && n <= |cells|
    requires ValuesUpTo(fs, cells, n) == Some(m)
    requires forall i, j | 2 <= i < j < n :: FieldName(fs[i]) != FieldName(fs[j])
    ensures |m| == if n >= 2 then n - 2 else 0
    decreases n
  {
    if n > 2 {
      var m' := ValuesUpTo(fs, cells, n - 1).value;
      var key := FieldName(fs[n - 1]).value;
      ValuesSize(fs, cells, n - 1, m');
      ValuesKeys(fs, cells, n - 1, m');
      assert key !in m';
      assert m == m'[key := cells[n - 1]];
    }
  }

  /** Fields the loop never visits do not matter. */
  lemma {:induction false} ValuesIgnoreUnvisited(fs: seq<Json>, fs': seq<Json>, cells: seq<Json>, n: nat)
    requires n <= |fs| && n <= |fs'| && n <= |cells|
    requires fs[..n] == fs'[..n]
    ensures ValuesUpTo(fs, cells, n) == ValuesUpTo(fs', cells, n)
    decreases n
  {
    if n > 2 {
      assert fs[n - 1] == fs[..n][n - 1] == fs'[n - 1];
      assert fs[..n - 1] == fs[..n][..n - 1];
      assert fs'[..n - 1] == fs'[..n][..n - 1];
      ValuesIgnoreUnvisited(fs, fs', cells, n - 1);
    }
  }

  // ---------------------------------------------------------------------------
  // The record loop.

  /** Both record lists, concatenated, when neither decode failed. */
  function Concat(a: Option<seq<Record>>, b: Option<seq<Record>>): Option<seq<Record>>
  {
    if a.Some? && b.Some? then Some(a.value + b.value) else None
  }

  /**
    Rows are decoded independently: the records of `a + b` are those of `a`
    followed by those of `b`, and a failing row anywhere fails the whole.
   */
  lemma {:induction false} RowsAppend(fields: Json, a: seq<Json>, b: seq<Json>)
    ensures DecodeRows(fields, a + b) == Concat(DecodeRows(fields, a), DecodeRows(fields, b))
    decreases |b|
  {
    if b == [] {
      assert a + b == a;
      var ra := DecodeRows(fields, a);
      if ra.Some? {
        assert ra.value + [] == ra.value;
      }
    } else {
      var b' := b[..|b| - 1];
      var row := b[|b| - 1];
      assert (a + b)[..|a + b| - 1] == a + b';
      assert (a + b)[|a + b| - 1] == row;
      RowsAppend(fields, a, b');
      var ra, rb' := DecodeRows(fields, a), DecodeRows(fields, b');
      if ra.Some? && rb'.Some? {
        match ShapeOf(row)
        case Short =>
        case Broken =>
        case Cells(cells) =>
          if DecodeRow(fields, cells).Some? {
            assert ra.value + (rb'.value + [DecodeRow(fields, cells).value])
                == (ra.value + rb'.value) + [DecodeRow(fields, cells).value];
          }
      }
    }
  }

  /** Once a prefix of the rows fails, the decode of all rows fails. */
  lemma RowsNoneStays(fields: Json, rows: seq<Json>, i: nat)
    requires i <= |rows|
    requires DecodeRows(fields, rows[..i]).None?
    ensures DecodeRows(fields, rows).None?
  {
    RowsAppend(fields, rows[..i], rows[i..]);
    assert rows[..i] + rows[i..] == rows;
  }

  /** A row shorter than two cells is dropped without a trace, wherever it stands. */
  lemma ShortRowDropped(fields: Json, a: seq<Json>, row: Json, b: seq<Json>)
    requires ShapeOf(row).Short?
    ensures DecodeRows(fields, a + [row] + b) == DecodeRows(fields, a + b)
  {
    RowsAppend(fields, a + [row], b);
    RowsAppend(fields, a, [row]);
    RowsAppend(fields, a, b);
    assert [row][..0] == [];
  }

  /** The indices of the rows that yield a record: those with at least two cells. */
  function UsableIndices(rows: seq<Json>): (idx: seq<nat>)
    ensures forall k | 0 <= k < |idx| :: idx[k] < |rows| && ShapeOf(rows[idx[k]]).Cells?
    ensures forall k, l | 0 <= k < l < |idx| :: idx[k] < idx[l]
    ensures forall i | 0 <= i < |rows| && ShapeOf(rows[i]).Cells? :: i in idx
  {
    if rows == [] then []
    else
      var last := |rows| - 1;
      var idx := UsableIndices(rows[..last]);
      assert forall i | 0 <= i < last :: rows[..last][i] == rows[i];
      if ShapeOf(rows[last]).Cells? then idx + [last] else idx
  }

  /**
    Records correspond one-to-one and in order to the rows with at least two
    cells: record k is the record of the k-th such row.
   */
  lemma {:induction false} RecordsFollowRows(fields: Json, rows: seq<Json>, records: seq<Record>)
    requires DecodeRows(fields, rows) == Some(records)
    ensures |records| == |UsableIndices(rows)|
    ensures forall k | 0 <= k < |records| ::
      DecodeRow(fields, ShapeOf(rows[UsableIndices(rows)[k]]).cells) == Some(records[k])
    decreases |rows|
  {
    if rows != [] {
      var last := |rows| - 1;
      var init := rows[..last];
      var prefix := DecodeRows(fields, init).value;
      RecordsFollowRows(fields, init, prefix);
      var idx := UsableIndices(init);
      forall k | 0 <= k < |idx|
        ensures init[idx[k]] == rows[idx[k]]
      {
      }
      if ShapeOf(rows[last]).Cells? {
        assert UsableIndices(rows) == idx + [last];
        assert records == prefix + [DecodeRow(fields, ShapeOf(rows[last]).cells).value];
      } else {
        assert UsableIndices(rows) == idx;
        assert records == prefix;
      }
    }
  }

  /** A `data` given as a str yields no records: each of its characters is a short row. */
  lemma {:induction false} StringDataHasNoRecords(fields: Json, s: string)
    ensures DecodeData(fields, Str(s)) == Some([])
    decreases |s|
  {
    if s != [] {
      var rows := Chars(s);
      assert rows[..|rows| - 1] == Chars(s[..|s| - 1]);
      StringDataHasNoRecords(fields, s[..|s| - 1]);
    }
  }

  /**
    A field without a name that some row reaches (its index is below the row's
    length) fails the whole decode: the field is not skipped.
   */
  lemma NamelessFieldFailsDecode(payload: Json, fs: seq<Json>, rows: seq<Json>, j: nat, i: nat)
    requires payload.Obj? && "head" in payload.members && "data" in payload.members
    requires payload.members["head"].Obj?
    requires Get(payload.members["head"].members, "fields", Arr([])) == Arr(fs)
    requires payload.members["data"] == Arr(rows)
    requires j < |rows| && ShapeOf(rows[j]).Cells?
    requires 2 <= i < |fs| && i < |ShapeOf(rows[j]).cells|
    requires FieldName(fs[i]).None?
    ensures Decode(payload).None?
  {
    var cells := ShapeOf(rows[j]).cells;
    ValuesFailIff(fs, cells, Min(|fs|, |cells|));
    assert DecodeRow(Arr(fs), cells).None?;
    RowsAppend(Arr(fs), rows[..j], [rows[j]]);
    assert [rows[j]][..0] == [];
    assert rows[..j + 1] == rows[..j] + [rows[j]];
    RowsNoneStays(Arr(fs), rows, j + 1);
  }

  /**
    Field descriptors beyond the longest row are never inspected: replacing
    them changes no record.
   */
  lemma {:induction false} UnreachedFieldsIgnored(fs: seq<Json>, fs': seq<Json>, rows: seq<Json>, n: nat)
    requires n <= |fs| && n <= |fs'| && fs[..n] == fs'[..n]
    requires forall k | 0 <= k < |rows| && ShapeOf(rows[k]).Cells? :: |ShapeOf(rows[k]).cells| <= n
    ensures DecodeRows(Arr(fs), rows) == DecodeRows(Arr(fs'), rows)
    decreases |rows|
  {
    if rows != [] {
      var last := |rows| - 1;
      assert forall k | 0 <= k < last :: rows[..last][k] == rows[k];
      UnreachedFieldsIgnored(fs, fs', rows[..last], n);
      if ShapeOf(rows[last]).Cells? {
        var cells := ShapeOf(rows[last]).cells;
        var reach := |cells|;
        assert Min(|fs|, |cells|) == reach == Min(|fs'|, |cells|);
        assert fs[..reach] == fs[..n][..reach];
        assert fs'[..reach] == fs'[..n][..reach];
        ValuesIgnoreUnvisited(fs, fs', cells, reach);
      }
    }
  }

  /**
    A head without `environment` never stops the decode: the result exists
    exactly when `data` decodes, and then names the station and table "unknown".
   */
  lemma MissingEnvironmentDefaults(payload: Json)
    requires payload.Obj? && "head" in payload.members && "data" in payload.members
    requires payload.members["head"].Obj? && "environment" !in payload.members["head"].members
    ensures var fields := Get(payload.members["head"].members, "fields", Arr([]));
      Decode(payload).Some? <==> DecodeData(fields, payload.members["data"]).Some?
    ensures Decode(payload).Some? ==>
      && Decode(payload).value.environment == Obj(map[])
      && Decode(payload).value.station == Str("unknown")
      && Decode(payload).value.table == Str("unknown")
  {
  }
}
