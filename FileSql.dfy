/** Running a SQL query against the Parquet file (src/file/sql.rs). The query
    engine is a collaborator: its three steps (scan the file lazily, execute
    the query with the scan registered as table "parquet", collect the result
    frame) are functions supplied by the caller, each of which may fail with a
    message. What is modelled is the local logic: the empty-query guard, the
    early return on the first failing step, and the normalisation of the
    collected frame into a rectangular, stringified result set. */
module FileSql {
  import opened Options
  import opened SampleData

  /** One cell of a result frame: null, or a value with its display string. */
  datatype AnyValue = Null | Value(display: string)

  /** A named column of a frame. */
  datatype Series = Series(name: string, values: seq<AnyValue>)

  /** A collected result frame: its columns in emitted order and its height. */
  datatype DataFrame = DataFrame(columns: seq<Series>, height: nat)

  /** What a SQL query leaves in the SQL tab: data or an error message. */
  datatype SqlResult = Ok(data: ParquetSampleData) | Err(message: string)

  /** The query engine, generic over its lazy-frame type. */
  datatype Engine<!LazyFrame> = Engine(
    scanParquet: string -> Result<LazyFrame>,
    execute: (string, LazyFrame, string) -> Result<LazyFrame>,
    collect: LazyFrame -> Result<DataFrame>)

  const TableName: string := "parquet"
  const EmptyQueryMessage: string := "Empty query"

  // ---------------------------------------------------------------------------
  // `str::trim`: Unicode White_Space characters stripped at both ends.

  predicate IsWhitespace(c: char) {
    || '\U{0009}' <= c <= '\U{000D}'
    || c == '\U{0020}' || c == '\U{0085}' || c == '\U{00A0}' || c == '\U{1680}'
    || '\U{2000}' <= c <= '\U{200A}'
    || c == '\U{2028}' || c == '\U{2029}' || c == '\U{202F}' || c == '\U{205F}' || c == '\U{3000}'
  }

  predicate IsBlank(s: string) {
    forall i :: 0 <= i < |s| ==> IsWhitespace(s[i])
  }

  function TrimStart(s: string): string {
    if s != [] && IsWhitespace(s[0]) then TrimStart(s[1..]) else s
  }

  function TrimEnd(s: string): string {
    if s != [] && IsWhitespace(s[|s| - 1]) then TrimEnd(s[..|s| - 1]) else s
  }

  function Trim(s: string): string {
    TrimEnd(TrimStart(s))
  }

  lemma {:induction false} TrimStartEmpty(s: string)
    ensures TrimStart(s) == [] <==> IsBlank(s)
  {
    if s != [] && IsWhitespace(s[0]) {
      TrimStartEmpty(s[1..]);
      assert IsBlank(s) <==> IsBlank(s[1..]) by {
        assert forall i :: 1 <= i < |s| ==> s[i] == s[1..][i - 1];
      }
    }
  }

  lemma {:induction false} TrimEndEmpty(s: string)
    ensures TrimEnd(s) == [] <==> IsBlank(s)
  {
    if s != [] && IsWhitespace(s[|s| - 1]) {
      TrimEndEmpty(s[..|s| - 1]);
      assert IsBlank(s) <==> IsBlank(s[..|s| - 1]) by {
        assert forall i :: 0 <= i < |s| - 1 ==> s[i] == s[..|s| - 1][i];
      }
    }
  }

  /** `query.trim().is_empty()` holds exactly for queries made only of
      whitespace (the empty query included). */
  lemma TrimmedEmptyIffBlank(s: string)
    ensures Trim(s) == [] <==> IsBlank(s)
  {
    TrimStartEmpty(s);
    TrimEndEmpty(TrimStart(s));
    var t := TrimStart(s);
    if t != [] {
      // TrimStart stops at a non-whitespace character, so t is not blank.
      TrimStartHead(s);
      assert !IsWhitespace(t[0]);
    }
  }

  lemma {:induction false} TrimStartHead(s: string)
    ensures TrimStart(s) != [] ==> !IsWhitespace(TrimStart(s)[0])
  {
    if s != [] && IsWhitespace(s[0]) {
      TrimStartHead(s[1..]);
    }
  }

  // ---------------------------------------------------------------------------
  // Normalising a frame (dataframe_to_sample_data, get_value_as_string).

  /** The cell of `col` at `rowIdx` as shown: "NULL" for a null value or an
      index the column does not have, else the value's display string. */
  function GetValueAsString(col: Series, rowIdx: nat): string {
    if rowIdx < |col.values| then
      match col.values[rowIdx]
      case Null => "NULL"
      case Value(d) => d
    else
      "NULL"
  }

  function ColumnNames(df: DataFrame): seq<string> {
    seq(|df.columns|, i requires 0 <= i < |df.columns| => df.columns[i].name)
  }

  /** Row `r` of the frame, one stringified cell per column, in column order. */
  function RowStrings(df: DataFrame, r: nat): seq<string> {
    seq(|df.columns|, c requires 0 <= c < |df.columns| => GetValueAsString(df.columns[c], r))
  }

  /** The result set a frame normalises to. */
  function FrameToSampleData(df: DataFrame): ParquetSampleData {
    var names := ColumnNames(df);
    ParquetSampleData(names, |names|, df.height, seq(df.height, r requires 0 <= r < df.height => RowStrings(df, r)))
  }

  /** Normalisation is purely structural: rectangular, column names kept in
      the frame's order, one row per frame row in order, and every cell the
      stringified frame cell ("NULL" for nulls and missing values). */
  lemma FrameToSampleDataShape(df: DataFrame)
    ensures FrameToSampleData(df).Rectangular()
    ensures FrameToSampleData(df).totalColumns == |df.columns|
    ensures FrameToSampleData(df).totalRows == df.height
    ensures forall c :: 0 <= c < |df.columns| ==> FrameToSampleData(df).flattenedColumns[c] == df.columns[c].name
    ensures forall r, c :: 0 <= r < df.height && 0 <= c < |df.columns| ==>
      var cell := FrameToSampleData(df).rows[r][c];
      var values := df.columns[c].values;
      && (r < |values| && values[r].Value? ==> cell == values[r].display)
      && (r >= |values| || values[r].Null? ==> cell == "NULL")
  {
  }

  /** The nested loops of dataframe_to_sample_data: one pass over the frame's
      rows, each building a row by one pass over the columns. It never fails. */
  method DataframeToSampleData(df: DataFrame) returns (r: Result<ParquetSampleData>)
    ensures r == Success(FrameToSampleData(df))
  {
    var flattenedColumns := ColumnNames(df);
    var totalColumns := |flattenedColumns|;
    var rows: seq<seq<string>> := [];
    for rowIdx := 0 to df.height
      invariant |rows| == rowIdx
      invariant forall i :: 0 <= i < rowIdx ==> rows[i] == RowStrings(df, i)
    {
      var row: seq<string> := [];
      for c := 0 to |df.columns|
        invariant |row| == c
        invariant forall j :: 0 <= j < c ==> row[j] == GetValueAsString(df.columns[j], rowIdx)
      {
        var col := df.columns[c];
        row := row + [GetValueAsString(col, rowIdx)];
      }
      rows := rows + [row];
    }
    assert rows == FrameToSampleData(df).rows;
    r := Success(ParquetSampleData(flattenedColumns, totalColumns, df.height, rows));
  }

  // ---------------------------------------------------------------------------
  // run_sql

  /** The early-return chain of run_sql: reject a blank query, then scan,
      execute and collect, stopping at the first failure with its message. */
  function RunSql<L>(path: string, query: string, engine: Engine<L>): (r: SqlResult)
    ensures IsBlank(query) ==> r == Err(EmptyQueryMessage)
    ensures r.Ok? ==> r.data.Rectangular()
  {
    TrimmedEmptyIffBlank(query);
    if Trim(query) == [] then
      Err(EmptyQueryMessage)
    else
      match engine.scanParquet(path)
      case Failure(e) => Err(e)
      case Success(lf) =>
        match engine.execute(TableName, lf, query)
        case Failure(e) => Err(e)
        case Success(resultLf) =>
          match engine.collect(resultLf)
          case Failure(e) => Err(e)
          case Success(df) =>
            FrameToSampleDataShape(df);
            Ok(FrameToSampleData(df))
  }

  /** A blank query is answered "Empty query" whatever the engine does: the
      engine is never consulted. */
  lemma BlankQueryNeverReachesEngine<L>(path: string, query: string, e1: Engine<L>, e2: Engine<L>)
    requires IsBlank(query)
    ensures RunSql(path, query, e1) == RunSql(path, query, e2) == Err(EmptyQueryMessage)
  {
    TrimmedEmptyIffBlank(query);
  }

  /** Every error of run_sql comes from the blank-query guard or is, verbatim,
      the message of the first engine step that failed; normalisation itself
      never fails. */
  lemma RunSqlErrorOrigin<L>(path: string, query: string, engine: Engine<L>)
    requires RunSql(path, query, engine).Err?
    ensures var msg := RunSql(path, query, engine).message;
      || (IsBlank(query) && msg == EmptyQueryMessage)
      || (!IsBlank(query) && engine.scanParquet(path) == Failure(msg))
      || (!IsBlank(query) && engine.scanParquet(path).Success?
          && engine.execute(TableName, engine.scanParquet(path).value, query) == Failure(msg))
      || (!IsBlank(query) && engine.scanParquet(path).Success?
          && engine.execute(TableName, engine.scanParquet(path).value, query).Success?
          && engine.collect(engine.execute(TableName, engine.scanParquet(path).value, query).value) == Failure(msg))
  {
    TrimmedEmptyIffBlank(query);
  }

  /** On a non-blank query, each failing engine step ends run_sql with its
      own message, verbatim. */
  lemma RunSqlStopsAtFirstFailure<L>(path: string, query: string, engine: Engine<L>)
    requires !IsBlank(query)
    ensures engine.scanParquet(path).Failure? ==>
      RunSql(path, query, engine) == Err(engine.scanParquet(path).error)
    ensures (engine.scanParquet(path).Success?
             && engine.execute(TableName, engine.scanParquet(path).value, query).Failure?) ==>
      RunSql(path, query, engine) == Err(engine.execute(TableName, engine.scanParquet(path).value, query).error)
    ensures (engine.scanParquet(path).Success?
             && engine.execute(TableName, engine.scanParquet(path).value, query).Success?
             && engine.collect(engine.execute(TableName, engine.scanParquet(path).value, query).value).Failure?) ==>
      RunSql(path, query, engine)
      == Err(engine.collect(engine.execute(TableName, engine.scanParquet(path).value, query).value).error)
  {
    TrimmedEmptyIffBlank(query);
  }

  /** A failed scan skips the later steps: two engines that fail the scan in
      the same way give the same answer, whatever they would execute or
      collect. */
  lemma ScanFailureSkipsLaterSteps<L>(path: string, query: string, e1: Engine<L>, e2: Engine<L>)
    requires e1.scanParquet(path).Failure?
    requires e2.scanParquet(path) == e1.scanParquet(path)
    ensures RunSql(path, query, e1) == RunSql(path, query, e2)
  {
  }

  /** A failed execute skips collect: two engines that agree on the scan and
      fail the execute in the same way give the same answer. */
  lemma ExecuteFailureSkipsCollect<L>(path: string, query: string, e1: Engine<L>, e2: Engine<L>)
    requires e1.scanParquet(path).Success?
    requires e2.scanParquet(path) == e1.scanParquet(path)
    requires e1.execute(TableName, e1.scanParquet(path).value, query).Failure?
    requires e2.execute(TableName, e1.scanParquet(path).value, query)
      == e1.execute(TableName, e1.scanParquet(path).value, query)
    ensures RunSql(path, query, e1) == RunSql(path, query, e2)
  {
  }

  /** A successful query ran all three steps successfully and holds the
      normalised form of exactly the frame collect returned, which is
      rectangular. */
  lemma RunSqlOkIsNormalisedFrame<L>(path: string, query: string, engine: Engine<L>)
    requires RunSql(path, query, engine).Ok?
    ensures !IsBlank(query)
    ensures engine.scanParquet(path).Success?
    ensures engine.execute(TableName, engine.scanParquet(path).value, query).Success?
    ensures engine.collect(engine.execute(TableName, engine.scanParquet(path).value, query).value).Success?
    ensures RunSql(path, query, engine).data
      == FrameToSampleData(engine.collect(engine.execute(TableName, engine.scanParquet(path).value, query).value).value)
    ensures RunSql(path, query, engine).data.Rectangular()
  {
    TrimmedEmptyIffBlank(query);
    var lf := engine.scanParquet(path).value;
    var out := engine.execute(TableName, lf, query).value;
    var df := engine.collect(out).value;
    FrameToSampleDataShape(df);
  }
}
