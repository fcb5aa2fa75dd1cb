/**
 * The query orchestrator `process_clickhouse_query`: checks that schema and
 * table metadata can be read, runs the query, keeps at most 100 rows,
 * replaces every value that has `isoformat` by its ISO text, and packages the
 * rows with an analysis prompt or reports why it cannot.
 *
 * `Respond` states the whole decision as a function of the three gateway
 * outcomes; the methods below do the same work step by step, as the source
 * does, and are proved to agree with it.
 */
module Agent {
  import opened Wrappers
  import opened Builtins
  import opened ClickhouseClient

  /** The four-key dict the orchestrator returns. */
  datatype Package = Package(sqlQuery: string, results: seq<Row>, analysis: string, error: Option<string>)

  const RowCap := 100

  const MetadataError := "Failed to get schema or table information"

  const CrashPrefix := "An error occurred while processing your query: "

  const AnalysisHeader := "Analyze these results and provide:\n1. Key findings\n2. Notable trends\n3. Business implications\n4. Areas for investigation\n\nResults: "

  /** Python's `repr` of the serialised rows, as embedded in the prompt. */
  type Render = seq<Row> -> string

  /** `not error`: `None` and the empty string are falsy, any other string
      is truthy. */
  function Falsy(error: Option<string>): (b: bool)
    ensures error.None? ==> b
    ensures error.Some? ==> (b <==> |error.value| == 0)
  {
    error.None? || error.value == ""
  }

  /** The package returned when schema or table metadata cannot be read:
      nothing is echoed and the error is the fixed metadata message. */
  function MetadataFailed(): (p: Package)
    ensures p.sqlQuery == "" && p.results == [] && p.analysis == ""
    ensures !Falsy(p.error) && p.error.value == MetadataError
  {
    Package("", [], "", Some(MetadataError))
  }

  /** The package returned when an exception escapes the body. */
  function Crashed(message: string): (p: Package)
    ensures p.sqlQuery == "" && p.results == [] && p.analysis == ""
    ensures p.error.Some? && |p.error.value| >= |CrashPrefix| && p.error.value[..|CrashPrefix|] == CrashPrefix
    ensures p.error.value[|CrashPrefix|..] == message
  {
    Package("", [], "", Some(CrashPrefix + message))
  }

  /** A value whose `isoformat` raises. */
  predicate Raises(v: Value)
  {
    v.Temporal? && v.iso.Failure?
  }

  /** A row none of whose values raises when serialised. */
  predicate Clean(row: Row)
  {
    forall j :: 0 <= j < |row| ==> !Raises(row[j].1)
  }

  /** One value as serialised: its `isoformat()` text if it has that method,
      otherwise the value itself. */
  function NormaliseValue(v: Value): (r: Result<Value, string>)
    ensures r.Success? <==> !Raises(v)
    ensures r.Success? ==> !r.value.Temporal?
    ensures !v.Temporal? ==> r == Success(v)
    ensures v.Temporal? ==> r == (if v.iso.Success? then Success(Str(v.iso.value)) else Failure(v.iso.error))
  {
    match v
    case Temporal(iso) =>
      (match iso
       case Success(text) => Success(Str(text))
       case Failure(e) => Failure(e))
    case _ => Success(v)
  }

  /** A row as serialised: the same keys in the same order, each value
      normalised; the first value whose `isoformat` raises aborts it. */
  function NormaliseRow(row: Row): (r: Result<Row, string>)
    ensures r.Success? <==> Clean(row)
    ensures r.Success? ==> |r.value| == |row|
    ensures r.Success? ==> forall i :: 0 <= i < |row| ==>
              r.value[i].0 == row[i].0 && Success(r.value[i].1) == NormaliseValue(row[i].1)
  {
    if row == [] then Success([])
    else
      match NormaliseValue(row[0].1)
      case Failure(e) => Failure(e)
      case Success(v) =>
        match NormaliseRow(row[1..])
        case Failure(e) => Failure(e)
        case Success(rest) => Success([(row[0].0, v)] + rest)
  }

  /** The rows as serialised, row by row; the first failing row aborts. */
  function NormaliseRows(rows: seq<Row>): (r: Result<seq<Row>, string>)
    ensures r.Success? <==> forall i :: 0 <= i < |rows| ==> Clean(rows[i])
    ensures r.Success? ==> |r.value| == |rows|
    ensures r.Success? ==> forall i :: 0 <= i < |rows| ==> Success(r.value[i]) == NormaliseRow(rows[i])
  {
    if rows == [] then Success([])
    else
      match NormaliseRow(rows[0])
      case Failure(e) => Failure(e)
      case Success(row) =>
        match NormaliseRows(rows[1..])
        case Failure(e) => Failure(e)
        case Success(rest) => Success([row] + rest)
  }

  /** The rows the source keeps, `results[:100]`: the first
      min(100, n) rows, in order. */
  function Kept(results: seq<Row>): (kept: seq<Row>)
    ensures |kept| == Min(RowCap, |results|)
    ensures forall i :: 0 <= i < |kept| ==> kept[i] == results[i]
    ensures |results| <= RowCap ==> kept == results
  {
    results[..Min(RowCap, |results|)]
  }

  /** `serialized_results`: the kept rows, normalised. Rows past the
      hundredth are never looked at. */
  function Serialized(results: seq<Row>): (r: Result<seq<Row>, string>)
    ensures r.Success? <==> forall i :: 0 <= i < Min(RowCap, |results|) ==> Clean(results[i])
    ensures r.Success? ==> |r.value| == Min(RowCap, |results|)
    ensures r.Success? ==> forall i :: 0 <= i < |r.value| ==> Success(r.value[i]) == NormaliseRow(results[i])
  {
    NormaliseRows(Kept(results))
  }

  /** The prompt built on the success branch: the fixed instructions, then
      the rendered rows. */
  function AnalysisPrompt(render: Render, rows: seq<Row>): (prompt: string)
    ensures |prompt| == |AnalysisHeader| + |render(rows)|
    ensures prompt[..|AnalysisHeader|] == AnalysisHeader
    ensures prompt[|AnalysisHeader|..] == render(rows)
  {
    AnalysisHeader + render(rows)
  }

  /** What `process_clickhouse_query` does with the user's query outcome
      once the metadata is known to be readable. */
  function Conclude(query: string, run: Outcome, render: Render): (p: Package)
    ensures |p.results| <= RowCap
    ensures p.results != [] ==> p.sqlQuery == query && p.error == run.error && Falsy(p.error)
    ensures p.analysis != "" <==> p.results != []
    ensures p.results != [] <==> Falsy(run.error) && run.results != [] && Serialized(run.results).Success?
    ensures Serialized(run.results).Failure? ==> p == Crashed(Serialized(run.results).error)
  {
    match Serialized(run.results)
    case Failure(e) => Crashed(e)
    case Success(rows) =>
      if Falsy(run.error) && rows != [] then
        Package(query, rows, AnalysisPrompt(render, rows), run.error)
      else
        Package(query, [], "", run.error)
  }

  /** `process_clickhouse_query(query)`, given the outcomes of the schema
      query, the table-stats query and the user's query. */
  function Respond(query: string, schema: Outcome, stats: Outcome, run: Outcome, render: Render): (p: Package)
    ensures |p.results| <= RowCap
    ensures !schema.success || !stats.success ==> p == MetadataFailed()
    ensures schema.success && stats.success ==> p == Conclude(query, run, render)
  {
    if !schema.success || !stats.success then MetadataFailed() else Conclude(query, run, render)
  }

  /** Readable metadata, a falsy error and at least one row that all
      serialise give the success package: the first min(100, n) rows in
      their original order, each with the same keys in the same order and
      each value normalised, and the prompt embeds exactly those rows. */
  lemma SuccessBranch(query: string, schema: Outcome, stats: Outcome, run: Outcome, render: Render)
    requires schema.success && stats.success
    requires Falsy(run.error) && run.results != [] && Serialized(run.results).Success?
    ensures var p := Respond(query, schema, stats, run, render);
      && p == Package(query, Serialized(run.results).value, AnalysisPrompt(render, Serialized(run.results).value), run.error)
      && |p.results| == Min(RowCap, |run.results|)
      && p.analysis == AnalysisPrompt(render, p.results)
      && forall i :: 0 <= i < |p.results| ==>
           && Keys(p.results[i]) == Keys(run.results[i])
           && forall j :: 0 <= j < |p.results[i]| ==> NormaliseValue(run.results[i][j].1) == Success(p.results[i][j].1)
  {
    var p := Respond(query, schema, stats, run, render);
    forall i | 0 <= i < |p.results|
      ensures Keys(p.results[i]) == Keys(run.results[i])
    {
      assert Kept(run.results)[i] == run.results[i];
    }
  }

  /** When the query reports an error, or returns no rows, nothing is
      packaged: the query text and the error are echoed, results and analysis
      are empty. */
  lemma ErrorOrEmptyBranch(query: string, schema: Outcome, stats: Outcome, run: Outcome, render: Render)
    requires schema.success && stats.success
    requires Serialized(run.results).Success?
    requires !Falsy(run.error) || run.results == []
    ensures Respond(query, schema, stats, run, render) == Package(query, [], "", run.error)
  {
  }

  /** The metadata-failure package cannot be mistaken for the exception
      package: its error does not start with the exception prefix. */
  lemma MetadataFailedDistinct(message: string)
    ensures MetadataFailed() != Crashed(message)
  {
    assert |MetadataError| < |CrashPrefix|;
  }

  /** `e` is the message of the first raising value, scanning rows in order
      and each row's values in order. */
  ghost predicate FirstRaised(rows: seq<Row>, e: string)
  {
    exists i, j :: && 0 <= i < |rows| && 0 <= j < |rows[i]|
                   && rows[i][j].1 == Temporal(Failure(e))
                   && (forall i' :: 0 <= i' < i ==> Clean(rows[i']))
                   && Clean(rows[i][..j])
  }

  /** The position of the first row that does not serialise, or `|rows|`. */
  function FirstDirty(rows: seq<Row>): (i: nat)
    ensures i <= |rows|
    ensures forall i' :: 0 <= i' < i ==> Clean(rows[i'])
    ensures i < |rows| ==> !Clean(rows[i])
  {
    if rows == [] || !Clean(rows[0]) then 0 else 1 + FirstDirty(rows[1..])
  }

  /** The position of the first raising value of a row, or `|row|`. */
  function FirstRaising(row: Row): (j: nat)
    ensures j <= |row|
    ensures Clean(row[..j])
    ensures j < |row| ==> Raises(row[j].1)
  {
    if row == [] || Raises(row[0].1) then 0
    else
      var j := 1 + FirstRaising(row[1..]);
      assert row[..j] == [row[0]] + row[1..][..j - 1];
      j
  }

  /** When serialising fails, it fails with the message of the first raising
      value, in row and column order. */
  lemma RowsFirstRaised(rows: seq<Row>)
    requires NormaliseRows(rows).Failure?
    ensures FirstRaised(rows, NormaliseRows(rows).error)
  {
    var i := FirstDirty(rows);
    FirstFailingRow(rows, i);
    var j := FirstRaising(rows[i]);
    FirstRaisingValue(rows[i], j);
  }

  /** An exception escapes exactly when a kept value's `isoformat` raises; the
      package then reports the first such message behind the fixed prefix.
      Otherwise the query text and the query's error are echoed. */
  lemma ExceptionBranch(query: string, schema: Outcome, stats: Outcome, run: Outcome, render: Render)
    requires schema.success && stats.success
    ensures var p := Respond(query, schema, stats, run, render);
      var kept := Kept(run.results);
      && ((exists i :: 0 <= i < |kept| && !Clean(kept[i])) ==> exists e :: p == Crashed(e) && FirstRaised(kept, e))
      && ((forall i :: 0 <= i < |kept| ==> Clean(kept[i])) ==> p.sqlQuery == query && p.error == run.error)
  {
    var kept := Kept(run.results);
    if NormaliseRows(kept).Failure? {
      RowsFirstRaised(kept);
    }
  }

  /** A row with no value exposing `isoformat` is left as it is. */
  lemma {:induction false} PlainRowUnchanged(row: Row)
    requires forall i :: 0 <= i < |row| ==> !row[i].1.Temporal?
    ensures NormaliseRow(row) == Success(row)
  {
    if row != [] {
      PlainRowUnchanged(row[1..]);
      assert [row[0]] + row[1..] == row;
    }
  }

  /** Serialising a serialised row changes nothing. */
  lemma NormaliseRowIdempotent(row: Row)
    requires NormaliseRow(row).Success?
    ensures NormaliseRow(NormaliseRow(row).value) == NormaliseRow(row)
  {
    PlainRowUnchanged(NormaliseRow(row).value);
  }

  /** A row fails to serialise with the message of its first raising value. */
  lemma {:induction false} FirstRaisingValue(row: Row, i: nat)
    requires i < |row| && Raises(row[i].1) && Clean(row[..i])
    ensures NormaliseRow(row) == Failure(row[i].1.iso.error)
  {
    if i > 0 {
      assert !Raises(row[..i][0].1);
      assert row[1..][..i - 1] == row[..i][1..];
      assert row[1..][i - 1] == row[i];
      FirstRaisingValue(row[1..], i - 1);
    }
  }

  /** The inner loop: fills `serialized_row` key by key. */
  method SerializeRow(row: Row) returns (r: Result<Row, string>)
    requires Unique(row)
    ensures r == NormaliseRow(row)
  {
    var serialized: Row := [];
    for i := 0 to |row|
      invariant |serialized| == i
      invariant Clean(row[..i])
      invariant forall j :: 0 <= j < i ==>
                  serialized[j].0 == row[j].0 && NormaliseValue(row[j].1) == Success(serialized[j].1)
    {
      var key, value := row[i].0, row[i].1;
      assert !Has(serialized, key);
      if value.Temporal? {
        if value.iso.Failure? {
          FirstRaisingValue(row, i);
          return Failure(value.iso.error);
        }
        serialized := Put(serialized, key, Str(value.iso.value));
      } else {
        serialized := Put(serialized, key, value);
      }
      assert row[..i + 1] == row[..i] + [row[i]];
    }
    assert row[..|row|] == row;
    assert forall j :: 0 <= j < |row| ==> NormaliseRow(row).value[j] == serialized[j];
    assert NormaliseRow(row).value == serialized;
    return Success(serialized);
  }

  /** Rows fail to serialise with the message of their first failing row. */
  lemma {:induction false} FirstFailingRow(rows: seq<Row>, i: nat)
    requires i < |rows| && !Clean(rows[i])
    requires forall i' :: 0 <= i' < i ==> Clean(rows[i'])
    ensures NormaliseRows(rows) == Failure(NormaliseRow(rows[i]).error)
  {
    if i > 0 {
      assert Clean(rows[0]);
      assert rows[1..][i - 1] == rows[i];
      FirstFailingRow(rows[1..], i - 1);
    }
  }

  /** The outer loop over `results[:100]`, appending each serialised row. */
  method SerializeResults(results: seq<Row>) returns (r: Result<seq<Row>, string>)
    requires forall i :: 0 <= i < |results| ==> Unique(results[i])
    ensures r == Serialized(results)
  {
    var kept := results[..Min(RowCap, |results|)];
    var serialized: seq<Row> := [];
    for i := 0 to |kept|
      invariant |serialized| == i
      invariant forall j :: 0 <= j < i ==> NormaliseRow(kept[j]) == Success(serialized[j])
    {
      var row := SerializeRow(kept[i]);
      if row.Failure? {
        FirstFailingRow(kept, i);
        return Failure(row.error);
      }
      serialized := serialized + [row.value];
    }
    assert kept == Kept(results);
    assert forall j :: 0 <= j < |kept| ==> NormaliseRows(kept).value[j] == serialized[j];
    assert NormaliseRows(kept).value == serialized;
    return Success(serialized);
  }

  /** The part of `process_clickhouse_query` after the metadata check:
      serialise the kept rows and choose the package. */
  method ConcludeQuery(query: string, sqlResult: Outcome, render: Render) returns (p: Package)
    requires forall i :: 0 <= i < |sqlResult.results| ==> Unique(sqlResult.results[i])
    ensures p == Conclude(query, sqlResult, render)
  {
    var results := sqlResult.results;
    var error := sqlResult.error;
    var serialized := SerializeResults(results);
    if serialized.Failure? {
      return Crashed(serialized.error);
    }
    if Falsy(error) && serialized.value != [] {
      p := Package(query, serialized.value, AnalysisPrompt(render, serialized.value), error);
    } else {
      p := Package(query, [], "", error);
    }
  }

  /** `process_clickhouse_query(query)` against the shared gateway. The user's
      query is sent only when both metadata queries succeed. */
  method ProcessClickhouseQuery(gateway: ClickHouseClient, connect: Result<Client, string>, driver: Driver,
                                render: Render, query: string) returns (p: Package)
    modifies gateway
    ensures var client := Resolve(old(gateway.instance), connect);
      var schema := Execute(client, driver, SchemaSql, None);
      var stats := Execute(client, driver, StatsSql, None);
      && p == Respond(query, schema, stats, Execute(client, driver, query, None), render)
      && gateway.requested == old(gateway.requested) + [SchemaSql, StatsSql] +
                              (if schema.success && stats.success then [query] else [])
    ensures gateway.instance == Stored(old(gateway.instance), connect)
    ensures gateway.connectAttempts == old(gateway.connectAttempts) +
              (if old(gateway.instance).Some? then 0 else if connect.Success? then 1 else 2)
  {
    ghost var client := Resolve(gateway.instance, connect);
    var schemaInfo := GetSchemaInfo(gateway, connect, driver);
    assert Resolve(gateway.instance, connect) == client;
    var tableStats := GetTableStats(gateway, connect, driver);
    assert Resolve(gateway.instance, connect) == client;
    if !schemaInfo.success || !tableStats.success {
      return MetadataFailed();
    }
    var sqlResult := ExecuteClickhouseQuery(gateway, connect, driver, query, None);
    assert WellFormed(sqlResult);
    p := ConcludeQuery(query, sqlResult, render);
  }
}
