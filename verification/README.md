# ClickHouse query gateway and result shaping, in Dafny

This project models the part of the ClickHouse analytics agent that is plain
code rather than instructions for a language model:

- the database gateway (`clickhouse_client.py`): the lazily created,
  process-wide `ClickHouseClient`, `execute_clickhouse_query`, which turns
  what the driver returns or raises into an outcome record
  `{success, results, columns, error}`, and the two metadata helpers
  `get_schema_info` and `get_table_stats`;
- the query orchestrator `process_clickhouse_query` (`agent.py`): it stops
  with a fixed error package when schema or table metadata cannot be read,
  otherwise runs the query, keeps at most the first 100 rows, replaces every
  value that has an `isoformat` method with that method's text, and then
  either packages the rows with an analysis prompt or returns an empty
  package that echoes the query and the gateway's error. An exception inside
  it becomes a package whose error carries a fixed prefix.

Files:

- `wrappers.dfy` — `Option` (Python's `None`) and `Result` (a value or a
  raised exception's message).
- `builtins.dfy` — Python's `dict` as an association list in insertion order
  with distinct keys (`d[k] = v` updates a present key where it stands and
  appends a new one), `zip`, and `dict(pairs)`, where the last value given for
  a repeated key wins.
- `clickhouse_client.dfy` — values, outcomes, `Execute` (the reshaping as a
  function of the connection attempt and the driver's reply), the
  `ClickHouseClient` class with its `instance` field, and the methods that go
  through it.
- `agent.dfy` — value and row normalisation, `Respond` (the whole decision of
  `process_clickhouse_query` as a function of the three gateway outcomes), the
  two serialisation loops as methods proved equal to their specifications, and
  `ProcessClickhouseQuery`, which drives the gateway.

How the outside world enters the model:

- Creating a client (`clickhouse_connect.get_client`) is an input of type
  `Result<Client, string>`: a client handle, or the message of the exception it
  raises. `Client` is an opaque handle.
- `client.query` is a function parameter `Driver` from the client, the SQL
  text and the parameters to a `Reply`: either `Raised(message)` or
  `Returned(result)`, where `result` is `None` for a falsy result and
  otherwise holds `column_names` and `result_rows`.
- Python's `repr` of the serialised rows inside the prompt is a function
  parameter `Render`.
- A value that has `isoformat` is `Temporal(iso)`, where `iso` is what calling
  the method gives, or the message of the exception it raises.

Behaviour kept as the code has it:

- `columns` is `[desc[0] for desc in result.column_names]`. Column names are
  strings, so each column becomes the first character of its name; an empty
  name raises `IndexError` ("string index out of range"), which the
  surrounding `try` turns into a failure outcome. Rows are
  `dict(zip(columns, row))`, so two columns that share a first character
  collapse into one key holding the later value (`FirstCharacterExample`,
  `RepeatedColumnExample`), at the position of the first such column
  (`RepeatedColumnOrderExample`).
- When the query itself reports an error or returns no rows, the package
  still echoes `sql_query = query`; only the metadata-failure and exception
  packages blank it.
- A failure outcome carries `str(e)` as its error, which Python allows to be
  the empty string; the model does not claim that the message is non-empty.
- Rows are cut to 100 before they are normalised, so a value beyond the
  hundredth row is never touched and cannot raise.
- On the success branch `error` is the gateway's error as it is (a success
  outcome carries `None`).
- Every package has exactly the four keys `sql_query`, `results`,
  `analysis`, `error`: `Package` is a datatype with exactly those four fields.

## Model

| member | source | states |
|---|---|---|
| `Builtins.Min` | clickhouseaware/clickhouse_agent/agent.py:69 | the smaller of two lengths: at most each, and equal to one of them |
| `Builtins.Keys` | clickhouseaware/clickhouse_agent/agent.py:71 | the keys of a dict in insertion order, one per entry |
| `Builtins.Put` | clickhouseaware/clickhouse_agent/agent.py:73-75 | assigning a key keeps the keys distinct; a present key keeps its position and takes the new value, every other entry is unchanged, and a new key is appended at the end |
| `Builtins.PutGet` | clickhouseaware/clickhouse_agent/agent.py:73-75 | after assigning a key, looking it up yields the new value |
| `Builtins.PutOther` | clickhouseaware/clickhouse_agent/agent.py:73-75 | assigning one key leaves every other key's value unchanged |
| `Builtins.PutHas` | clickhouseaware/clickhouse_agent/agent.py:73-75 | after assigning a key, the keys present are the old ones plus that key |
| `Builtins.Zip` | clickhouseaware/clickhouse_agent/clickhouse_client.py:51 | `zip` pairs position by position and stops at the shorter input |
| `Builtins.FromPairs` | clickhouseaware/clickhouse_agent/clickhouse_client.py:51 | `dict(pairs)` has distinct keys and no more entries than pairs |
| `Builtins.FromPairsHas` | clickhouseaware/clickhouse_agent/clickhouse_client.py:51 | a key is in `dict(pairs)` exactly when some pair carries it |
| `Builtins.FromPairsLastWins` | clickhouseaware/clickhouse_agent/clickhouse_client.py:51 | for a repeated key the value of its last pair is kept |
| `Builtins.FromPairsOfUnique` | clickhouseaware/clickhouse_agent/clickhouse_client.py:51 | with distinct keys `dict(pairs)` keeps every pair in order |
| `ClickhouseClient.Failed` | clickhouseaware/clickhouse_agent/clickhouse_client.py:54-55 | the `except` outcome is well formed, has `success` false and carries the exception's message as its error |
| `ClickhouseClient.EffectiveParams` | clickhouseaware/clickhouse_agent/clickhouse_client.py:47 | a missing parameter mapping becomes the empty mapping, a given one is passed on |
| `ClickhouseClient.ColumnsOf` | clickhouseaware/clickhouse_agent/clickhouse_client.py:50 | succeeds exactly when no column name is empty, and then yields one column per name, in order, the name's first character; otherwise raises the IndexError message |
| `ClickhouseClient.RowDict` | clickhouseaware/clickhouse_agent/clickhouse_client.py:51 | a row dict has distinct keys and at most min(columns, values) entries |
| `ClickhouseClient.RowDictKeys` | clickhouseaware/clickhouse_agent/clickhouse_client.py:51 | the keys are exactly the columns paired with a value (pairing stops at the shorter side), a subset of the columns |
| `ClickhouseClient.RowDictLastWins` | clickhouseaware/clickhouse_agent/clickhouse_client.py:51 | when a column name repeats, the later value wins |
| `ClickhouseClient.RowDictDistinct` | clickhouseaware/clickhouse_agent/clickhouse_client.py:51 | with distinct column names the row dict is the zipped pairs in order |
| `ClickhouseClient.Reshape` | clickhouseaware/clickhouse_agent/clickhouse_client.py:49-52 | a truthy result succeeds exactly when no column name is empty, and then has no error, one column per `column_names` entry (its first character) and one row dict per result row, in order; otherwise it is the IndexError failure |
| `ClickhouseClient.Handle` | clickhouseaware/clickhouse_agent/clickhouse_client.py:47-55 | a raising driver gives `success` false, no rows or columns and the message; a falsy result gives success with no rows, no columns and no error; a truthy result is reshaped |
| `ClickhouseClient.Execute` | clickhouseaware/clickhouse_agent/clickhouse_client.py:28-55 | every outcome is well formed (failure: no rows, no columns, a message; success: no error; every row a dict); a failed client creation is reported like a raising driver; otherwise the driver is given the SQL and `params or {}` |
| `ClickhouseClient.Resolve` | clickhouseaware/clickhouse_agent/clickhouse_client.py:16-25 | `get_instance` returns a client exactly when one is stored or creating one succeeds; a stored client is returned as it is, otherwise the outcome of creation |
| `ClickhouseClient.Stored` | clickhouseaware/clickhouse_agent/clickhouse_client.py:16-24 | after `get_instance` a client is stored exactly when one was returned, and it is the client returned; a stored client is never replaced |
| `ClickhouseClient.ResolveStable` | clickhouseaware/clickhouse_agent/clickhouse_client.py:14-25 | once a client is stored, later calls return it and store nothing new, whatever creating another would give |
| `ClickhouseClient.ClickHouseClient.constructor` | clickhouseaware/clickhouse_agent/clickhouse_client.py:8-11 | `_instance` starts as `None` |
| `ClickhouseClient.ClickHouseClient.GetInstance` | clickhouseaware/clickhouse_agent/clickhouse_client.py:14-25 | a client is created only when none is stored, and stored when creation succeeds; a stored client is returned unchanged with no creation attempt |
| `ClickhouseClient.ExecuteClickhouseQuery` | clickhouseaware/clickhouse_agent/clickhouse_client.py:45-55 | the outcome is `Execute` applied to what `get_instance` yields, and the call is recorded |
| `ClickhouseClient.GetSchemaInfo` | clickhouseaware/clickhouse_agent/clickhouse_client.py:58-74 | exactly `execute_clickhouse_query` on the fixed column-listing SQL, without parameters; a client creation is attempted only when none is stored |
| `ClickhouseClient.GetTableStats` | clickhouseaware/clickhouse_agent/clickhouse_client.py:77-91 | exactly `execute_clickhouse_query` on the fixed table-stats SQL, without parameters; a client creation is attempted only when none is stored |
| `ClickhouseClient.SelectOneExample` | clickhouseaware/clickhouse_agent/clickhouse_client.py:50-51 | for `SELECT 1` the column is `"1"` and the row is `{"1": 1}` |
| `ClickhouseClient.FirstCharacterExample` | clickhouseaware/clickhouse_agent/clickhouse_client.py:50 | columns `site` and `sessions` both become `s` |
| `ClickhouseClient.RepeatedColumnExample` | clickhouseaware/clickhouse_agent/clickhouse_client.py:51 | two columns both named `s` give a row with the one key `s` holding the later value |
| `ClickhouseClient.RepeatedColumnOrderExample` | clickhouseaware/clickhouse_agent/clickhouse_client.py:51 | columns `a, b, a` give the row `{a: 3, b: 2}`: a repeated key keeps its first position and its last value |
| `Agent.Falsy` | clickhouseaware/clickhouse_agent/agent.py:79 | `not error` holds for `None` and the empty string and fails for every other string |
| `Agent.MetadataFailed` | clickhouseaware/clickhouse_agent/agent.py:54-60 | the metadata-failure package echoes nothing, has empty results and analysis, and a truthy error that is the fixed metadata message |
| `Agent.MetadataFailedDistinct` | clickhouseaware/clickhouse_agent/agent.py:54-60 | the metadata-failure package differs from every exception package |
| `Agent.Kept` | clickhouseaware/clickhouse_agent/agent.py:69 | `results[:100]` is the first min(100, n) rows in order, and all rows when there are at most 100 |
| `Agent.Serialized` | clickhouseaware/clickhouse_agent/agent.py:68-76 | serialising the kept rows succeeds exactly when none of the first min(100, n) rows has a raising value, and then yields each kept row serialised, in order |
| `Agent.AnalysisPrompt` | clickhouseaware/clickhouse_agent/agent.py:80-86 | the prompt is the fixed instruction text followed by the rendered rows |
| `Agent.Crashed` | clickhouseaware/clickhouse_agent/agent.py:101-108 | the exception package has empty query, results and analysis, and an error that is the fixed prefix followed by the exception's message |
| `Agent.NormaliseValue` | clickhouseaware/clickhouse_agent/agent.py:72-75 | a value with `isoformat` becomes its ISO text (or raises that method's exception); any other value passes through unchanged; no result has `isoformat` |
| `Agent.NormaliseRow` | clickhouseaware/clickhouse_agent/agent.py:70-76 | serialising a row succeeds exactly when none of its values raises, and then gives the same keys in the same order with each value normalised |
| `Agent.FirstRaisingValue` | clickhouseaware/clickhouse_agent/agent.py:70-76 | a row that fails to serialise fails with the message of its first raising value |
| `Agent.NormaliseRows` | clickhouseaware/clickhouse_agent/agent.py:68-76 | serialising rows succeeds exactly when no row has a raising value, and then gives each row serialised, in order |
| `Agent.FirstFailingRow` | clickhouseaware/clickhouse_agent/agent.py:68-76 | rows that fail to serialise fail with the error of their first failing row |
| `Agent.Conclude` | clickhouseaware/clickhouse_agent/agent.py:63-108 | at most 100 rows are returned; results are non-empty exactly when the error is falsy, the query returned rows and every kept row serialises, and then they come with the query text and the error; the analysis is non-empty exactly when there are results; a raising value gives the exception package |
| `Agent.Respond` | clickhouseaware/clickhouse_agent/agent.py:49-108 | at most 100 rows are returned; a metadata failure gives the fixed error package whatever the query would return; otherwise the query's outcome decides the package |
| `Agent.SuccessBranch` | clickhouseaware/clickhouse_agent/agent.py:63-93 | readable metadata, a falsy error, at least one row and kept rows that all serialise give the success package with the query, the serialised rows, the prompt and the error; its results are the first min(100, n) rows in order, each with its source row's keys and normalised values, and the analysis is the fixed header followed by the rendered results |
| `Agent.ErrorOrEmptyBranch` | clickhouseaware/clickhouse_agent/agent.py:94-100 | a reported error or zero rows give empty results and analysis while the query text and the error are echoed |
| `Agent.RowsFirstRaised` | clickhouseaware/clickhouse_agent/agent.py:68-76 | when serialising fails, the error is the message of the first raising value in row and column order |
| `Agent.ExceptionBranch` | clickhouseaware/clickhouse_agent/agent.py:101-108 | after good metadata, the exception package arises exactly when a kept value raises and carries the first message; otherwise the query text and the gateway's error are echoed |
| `Agent.PlainRowUnchanged` | clickhouseaware/clickhouse_agent/agent.py:72-75 | a row with no `isoformat` values is unchanged by serialisation |
| `Agent.NormaliseRowIdempotent` | clickhouseaware/clickhouse_agent/agent.py:72-75 | serialising an already serialised row changes nothing |
| `Agent.SerializeRow` | clickhouseaware/clickhouse_agent/agent.py:70-76 | the key-by-key loop filling `serialized_row` computes `NormaliseRow` |
| `Agent.SerializeResults` | clickhouseaware/clickhouse_agent/agent.py:68-76 | the loop over `results[:100]` computes the normalised first 100 rows |
| `Agent.ConcludeQuery` | clickhouseaware/clickhouse_agent/agent.py:63-100 | serialising and packaging the query's outcome step by step gives `Conclude` |
| `Agent.ProcessClickhouseQuery` | clickhouseaware/clickhouse_agent/agent.py:39-108 | the package is `Respond` of the three gateway outcomes, and the user's query is sent to the gateway only when both metadata queries succeed; client creation is attempted at most once when it succeeds and once per metadata query when it fails, never when a client is stored |

## Left out

- The `LlmAgent` construction and its instruction text (`agent.py` from line
  111): policy for an external language model, not code. The dimensions
  filter and the `LIMIT 100` rule it asks for are not enforced by any code.
- The pydantic schemas `QueryInput` and `QueryResult`: declarations for the
  agent framework; the function returns plain dicts.
- The network: `clickhouse_connect.get_client` and `client.query` are inputs
  (see above). Within one call of `ProcessClickhouseQuery` every attempt to
  create a client is given the same outcome. The model therefore cannot
  express a schema query whose client creation fails followed by a
  table-stats query whose creation succeeds; in the code that case returns
  the metadata-failure package, as the model does, but leaves a client
  stored, which `ProcessClickhouseQuery`'s statement about `instance` does
  not cover.
- What the schema and table-stats SQL mean (`ORDER BY table, position` and
  so on): the server evaluates them; the model keeps only their text.
- Logging of the exception and the `async` keyword: there is no `await`, so
  the function runs sequentially.
- Python's `repr`: the `Render` parameter, assumed not to raise.
- Exceptions inside `process_clickhouse_query` other than an `isoformat`
  method raising (memory errors, a raising `repr`) are not modelled.
- Python's `float` is a Dafny `real`, and Python's `int` is unbounded, as in
  Python.
- Truthiness of the driver's result object: an input (`Returned(None)`).
- `config.py` (environment loading and URL formatting) and `template.py`
  (a Jinja2 loader) are not part of this model.
