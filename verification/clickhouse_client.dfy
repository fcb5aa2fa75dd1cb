/**
 * The database gateway: a lazily created, process-wide client and
 * `execute_clickhouse_query`, which turns what the driver returns or raises
 * into an outcome record `{success, results, columns, error}`.
 *
 * The driver itself is not modelled. Creating a client
 * (`clickhouse_connect.get_client`) is an input that either yields a client or
 * raises, and `client.query` is a function from the client, the SQL text and
 * the parameters to a reply.
 */
module ClickhouseClient {
  import opened Wrappers
  import opened Builtins

  /** A scalar the driver can return. `Temporal` is any value that has an
      `isoformat` method (a date, time or datetime); it carries what calling
      that method gives, or the message of the exception it raises. */
  datatype Value =
    | Null
    | Bool(b: bool)
    | Int(i: int)
    | Float(f: real)
    | Str(s: string)
    | Temporal(iso: Result<string, string>)

  /** One result row: a dict from column name to value. */
  type Row = Dict<string, Value>

  type Params = map<string, Value>

  /** An opaque handle standing for a connected driver client. */
  datatype Client = Client(handle: nat)

  /** The driver's query result: `column_names` and `result_rows`. */
  datatype QueryResult = QueryResult(columnNames: seq<string>, resultRows: seq<seq<Value>>)

  /** What `client.query` does: raise with a message, or return a result,
      `None` standing for a result that is falsy. */
  datatype Reply = Raised(message: string) | Returned(result: Option<QueryResult>)

  type Driver = (Client, string, Params) -> Reply

  /** The record `execute_clickhouse_query` returns; `error` is `None` or `str(e)`. */
  datatype Outcome = Outcome(success: bool, results: seq<Row>, columns: seq<string>, error: Option<string>)

  /** The shape every outcome has: a failure carries no rows or columns and
      an error message; a success carries no error; every row is a dict. */
  predicate WellFormed(o: Outcome)
  {
    && (!o.success ==> o.results == [] && o.columns == [] && o.error.Some?)
    && (o.success ==> o.error.None?)
    && forall i :: 0 <= i < |o.results| ==> Unique(o.results[i])
  }

  /** The message of the IndexError raised by indexing an empty string. */
  const IndexErrorMessage := "string index out of range"

  const SchemaSql := "\n    SELECT \n        table,\n        name,\n        type\n    FROM system.columns \n    WHERE database = currentDatabase()\n    ORDER BY table, position\n    "

  const StatsSql := "\n    SELECT \n        name as table,\n        total_rows as row_count\n    FROM system.tables \n    WHERE database = currentDatabase()\n    "

  /** The outcome returned by the `except` clause: `success` false, no rows,
      no columns, and the exception's message. */
  function Failed(message: string): (o: Outcome)
    ensures WellFormed(o) && !o.success
    ensures o.error == Some(message)
  {
    Outcome(false, [], [], Some(message))
  }

  /** `params or {}`: a missing or empty mapping becomes a new empty one. */
  function EffectiveParams(params: Option<Params>): (p: Params)
    ensures params.None? ==> p == map[]
    ensures params.Some? ==> p == params.value
  {
    if params.None? || params.value == map[] then map[] else params.value
  }

  /** `[desc[0] for desc in column_names]`: the first element of each entry,
      which for a string is its first character; an empty entry raises. */
  function ColumnsOf(names: seq<string>): (r: Result<seq<string>, string>)
    ensures r.Success? <==> forall i :: 0 <= i < |names| ==> names[i] != []
    ensures r.Success? ==> |r.value| == |names|
    ensures r.Success? ==> forall i :: 0 <= i < |names| ==> r.value[i] == [names[i][0]]
    ensures r.Failure? ==> r.error == IndexErrorMessage
  {
    if names == [] then Success([])
    else if names[0] == [] then Failure(IndexErrorMessage)
    else
      match ColumnsOf(names[1..])
      case Failure(e) => Failure(e)
      case Success(rest) => Success([[names[0][0]]] + rest)
  }

  /** `dict(zip(columns, row))`. */
  function RowDict(columns: seq<string>, row: seq<Value>): (d: Row)
    ensures Unique(d)
    ensures |d| <= Min(|columns|, |row|)
  {
    FromPairs(Zip(columns, row))
  }

  /** A row dict has exactly the columns that are paired with a value as keys. */
  lemma RowDictKeys(columns: seq<string>, row: seq<Value>, k: string)
    ensures Has(RowDict(columns, row), k) <==> k in columns[..Min(|columns|, |row|)]
  {
    var ps := Zip(columns, row);
    FromPairsHas(ps, k);
    if k in columns[..Min(|columns|, |row|)] {
      var i :| 0 <= i < Min(|columns|, |row|) && columns[i] == k;
      assert ps[i].0 == k;
    }
  }

  /** When a column name repeats, the value of its last paired position wins. */
  lemma RowDictLastWins(columns: seq<string>, row: seq<Value>, j: nat)
    requires j < Min(|columns|, |row|)
    requires forall i :: j < i < Min(|columns|, |row|) ==> columns[i] != columns[j]
    ensures Get(RowDict(columns, row), columns[j]) == Some(row[j])
  {
    FromPairsLastWins(Zip(columns, row), j);
  }

  /** With distinct column names, the row dict is the zipped pairs, in order. */
  lemma RowDictDistinct(columns: seq<string>, row: seq<Value>)
    requires forall i, j :: 0 <= i < j < |columns| ==> columns[i] != columns[j]
    ensures RowDict(columns, row) == Zip(columns, row)
  {
    FromPairsOfUnique(Zip(columns, row));
  }

  /** The truthy-result branch: columns from `column_names`, one row dict
      per entry of `result_rows`, in order; an empty column name raises. */
  function Reshape(qr: QueryResult): (o: Outcome)
    ensures WellFormed(o)
    ensures o.success <==> forall i :: 0 <= i < |qr.columnNames| ==> qr.columnNames[i] != []
    ensures !o.success ==> o == Failed(IndexErrorMessage)
    ensures o.success ==> |o.columns| == |qr.columnNames|
    ensures o.success ==> forall i :: 0 <= i < |o.columns| ==> o.columns[i] == [qr.columnNames[i][0]]
    ensures o.success ==> |o.results| == |qr.resultRows|
    ensures o.success ==> forall i :: 0 <= i < |o.results| ==> o.results[i] == RowDict(o.columns, qr.resultRows[i])
  {
    match ColumnsOf(qr.columnNames)
    case Failure(e) => Failed(e)
    case Success(columns) =>
      var rows := seq(|qr.resultRows|, i requires 0 <= i < |qr.resultRows| => RowDict(columns, qr.resultRows[i]));
      Outcome(true, rows, columns, None)
  }

  /** The outcome for what `client.query` did: its exception message, an
      empty success for a falsy result, or the reshaped result. */
  function Handle(reply: Reply): (o: Outcome)
    ensures WellFormed(o)
    ensures reply.Raised? ==> o == Failed(reply.message)
    ensures reply == Returned(None) ==> o == Outcome(true, [], [], None)
    ensures reply.Returned? && reply.result.Some? ==> o == Reshape(reply.result.value)
  {
    match reply
    case Raised(e) => Failed(e)
    case Returned(None) => Outcome(true, [], [], None)
    case Returned(Some(qr)) => Reshape(qr)
  }

  /** `execute_clickhouse_query(sql, params)`, given what creating the client
      yields and the driver: a failed connection is reported like a failed
      query, and otherwise the driver sees the SQL and `params or {}`. */
  function Execute(connection: Result<Client, string>, driver: Driver, sql: string, params: Option<Params>): (o: Outcome)
    ensures WellFormed(o)
    ensures connection.Failure? ==> o == Failed(connection.error)
    ensures connection.Success? ==> o == Handle(driver(connection.value, sql, EffectiveParams(params)))
  {
    match connection
    case Failure(e) => Failed(e)
    case Success(client) => Handle(driver(client, sql, EffectiveParams(params)))
  }

  /** What `get_instance` returns: the stored client, or else the outcome of creating one. */
  function Resolve(instance: Option<Client>, connect: Result<Client, string>): (r: Result<Client, string>)
    ensures r.Success? <==> instance.Some? || connect.Success?
    ensures instance.Some? ==> r == Success(instance.value)
    ensures instance.None? ==> r == connect
  {
    if instance.Some? then Success(instance.value) else connect
  }

  /** What `_instance` holds after `get_instance`: a client is stored exactly
      when one is returned, and it is the client returned. */
  function Stored(instance: Option<Client>, connect: Result<Client, string>): (s: Option<Client>)
    ensures s.Some? <==> Resolve(instance, connect).Success?
    ensures s.Some? ==> Resolve(instance, connect) == Success(s.value)
    ensures instance.Some? ==> s == instance
  {
    if instance.None? && connect.Success? then Some(connect.value) else instance
  }

  /** Once a client is stored, every later `get_instance` returns it, whatever
      creating another one would have given, and stores nothing new. */
  lemma ResolveStable(instance: Option<Client>, first: Result<Client, string>, later: Result<Client, string>)
    requires Resolve(instance, first).Success?
    ensures Resolve(Stored(instance, first), later) == Resolve(instance, first)
    ensures Stored(Stored(instance, first), later) == Stored(instance, first)
  {
  }

  /**
   * The class-level state of `ClickHouseClient`: `_instance`, initially
   * `None`. The ghost fields count the attempts to create a client and record
   * the SQL of every `execute_clickhouse_query` call made through it.
   */
  class ClickHouseClient {
    var instance: Option<Client>
    ghost var connectAttempts: nat
    ghost var requested: seq<string>

    constructor ()
      ensures instance == None && connectAttempts == 0 && requested == []
    {
      instance := None;
      connectAttempts := 0;
      requested := [];
    }

    /** `get_instance`: creates a client only while none is stored. */
    method GetInstance(connect: Result<Client, string>) returns (r: Result<Client, string>)
      modifies this
      ensures r == Resolve(old(instance), connect)
      ensures instance == Stored(old(instance), connect)
      ensures old(instance).Some? ==> r == Success(old(instance).value) && instance == old(instance)
      ensures connectAttempts == old(connectAttempts) + (if old(instance).None? then 1 else 0)
      ensures requested == old(requested)
    {
      if instance.None? {
        connectAttempts := connectAttempts + 1;
        if connect.Failure? {
          return connect;
        }
        instance := Some(connect.value);
      }
      r := Success(instance.value);
    }
  }

  /** `execute_clickhouse_query`: fetches the shared client, queries, reshapes. */
  method ExecuteClickhouseQuery(gateway: ClickHouseClient, connect: Result<Client, string>, driver: Driver,
                                sql: string, params: Option<Params>) returns (o: Outcome)
    modifies gateway
    ensures o == Execute(Resolve(old(gateway.instance), connect), driver, sql, params)
    ensures gateway.instance == Stored(old(gateway.instance), connect)
    ensures gateway.connectAttempts == old(gateway.connectAttempts) + (if old(gateway.instance).None? then 1 else 0)
    ensures gateway.requested == old(gateway.requested) + [sql]
  {
    gateway.requested := gateway.requested + [sql];
    var client := gateway.GetInstance(connect);
    o := Execute(client, driver, sql, params);
  }

  /** `get_schema_info`: the fixed column-listing query, without parameters. */
  method GetSchemaInfo(gateway: ClickHouseClient, connect: Result<Client, string>, driver: Driver) returns (o: Outcome)
    modifies gateway
    ensures o == Execute(Resolve(old(gateway.instance), connect), driver, SchemaSql, None)
    ensures gateway.instance == Stored(old(gateway.instance), connect)
    ensures gateway.connectAttempts == old(gateway.connectAttempts) + (if old(gateway.instance).None? then 1 else 0)
    ensures gateway.requested == old(gateway.requested) + [SchemaSql]
  {
    o := ExecuteClickhouseQuery(gateway, connect, driver, SchemaSql, None);
  }

  /** `get_table_stats`: the fixed table-size query, without parameters. */
  method GetTableStats(gateway: ClickHouseClient, connect: Result<Client, string>, driver: Driver) returns (o: Outcome)
    modifies gateway
    ensures o == Execute(Resolve(old(gateway.instance), connect), driver, StatsSql, None)
    ensures gateway.instance == Stored(old(gateway.instance), connect)
    ensures gateway.connectAttempts == old(gateway.connectAttempts) + (if old(gateway.instance).None? then 1 else 0)
    ensures gateway.requested == old(gateway.requested) + [StatsSql]
  {
    o := ExecuteClickhouseQuery(gateway, connect, driver, StatsSql, None);
  }

  /** `SELECT 1`: the column named "1" keeps its whole name, and the row
      is `{"1": 1}`. */
  lemma SelectOneExample()
    ensures ColumnsOf(["1"]) == Success(["1"])
    ensures RowDict(["1"], [Int(1)]) == [("1", Int(1))]
  {
    var columns := ColumnsOf(["1"]);
    assert "1"[0] == '1';
    assert columns.Success? && |columns.value| == 1 && columns.value[0] == "1";
    assert columns.value == ["1"];
    RowDictDistinct(["1"], [Int(1)]);
    assert Zip(["1"], [Int(1)]) == [("1", Int(1))];
  }

  /** A longer column name is cut to its first character. */
  lemma FirstCharacterExample()
    ensures ColumnsOf(["site", "sessions"]) == Success(["s", "s"])
  {
    var columns := ColumnsOf(["site", "sessions"]);
    assert "site"[0] == 's' && "sessions"[0] == 's';
    assert columns.Success? && |columns.value| == 2 && columns.value[0] == "s" && columns.value[1] == "s";
    assert columns.value == ["s", "s"];
  }

  /** Two columns with the same name collapse into one key holding the later value. */
  lemma RepeatedColumnExample()
    ensures RowDict(["s", "s"], [Str("a"), Int(7)]) == [("s", Int(7))]
  {
    var ps := Zip(["s", "s"], [Str("a"), Int(7)]);
    assert ps == [("s", Str("a")), ("s", Int(7))];
    var none: seq<(string, Value)> := [];
    assert ps[..1][..0] == none;
    var first := FromPairs(ps[..1]);
    assert first == Put(none, "s", Str("a"));
    assert first == [("s", Str("a"))];
    assert FromPairs(ps) == Put(first, "s", Int(7));
  }

  /** A repeated column keeps the position of its first occurrence while
      taking the value of its last: `a, b, a` gives `{a: 3, b: 2}`. */
  lemma RepeatedColumnOrderExample()
    ensures RowDict(["a", "b", "a"], [Int(1), Int(2), Int(3)]) == [("a", Int(3)), ("b", Int(2))]
  {
    var ps := Zip(["a", "b", "a"], [Int(1), Int(2), Int(3)]);
    assert ps == [("a", Int(1)), ("b", Int(2)), ("a", Int(3))];
    var none: seq<(string, Value)> := [];
    assert ps[..1][..0] == none;
    var one := FromPairs(ps[..1]);
    assert one == Put(none, "a", Int(1));
    assert one == [("a", Int(1))];
    assert ps[..2][..1] == ps[..1];
    var two := FromPairs(ps[..2]);
    assert two == Put(one, "b", Int(2));
    assert two == [("a", Int(1)), ("b", Int(2))];
    assert ps[..3][..2] == ps[..2];
    assert ps[..3] == ps;
    assert FromPairs(ps) == Put(two, "a", Int(3));
  }
}
