# postgres_mcp in Dafny

A model of `postgres_mcp.py`, a Model Context Protocol server that reads
JSON-RPC requests from standard input, one per line, and answers on
standard output. It answers four methods:

- `initialize` gets a fixed server description.
- `tools/list` gets a fixed catalogue of three tools.
- `tools/call` runs one of the three tools against PostgreSQL.
- `notifications/initialized` gets no reply.

Any other method gets a `-32601` error, and an exception gets a `-32000` error, except on the two crash paths listed under "## Findings".

The project has seven modules:

- `Wrappers`: `Option` and `Result`.
- `Json`: the values `json.loads` produces. It also holds `dict.get`, `dict.get(key, default)`, `type(v).__name__` and `str(v)`.
- `Text`: `str.strip`, `str.upper`, `str.startswith` and `str.join`, plus a `split` used to read a joined text back.
- `Environment`: what the server uses but does not define. That is the database as one record of call outcomes (rows, or the text of the exception raised), `json.loads`, `json.dumps` of rows, and `str()` of floats, lists and dicts. These are all inputs.
- `Gateway`: `query_db`, with its `SELECT` guard and its sentinels, plus `list_tables` and `describe_table`.
- `Dispatch`: `format_text` and `handle`. `handle` returns the response dict, `None`, or the Python exception it raises. The exceptions are an `AttributeError` for a `params`, `arguments` or `query` of the wrong type, and an `AttributeError` for a message that is not a dict.
- `Transport`: `send` and `main`. `main` is the method `Serve`, a `while` loop over the lines read. It is proved equal to the function `RunLines`, which states what the loop writes and how it ends. `RunLines` keeps `msg` as an optional "last decoded message", exactly as the Python variable behaves across iterations.

The database may change between requests: the `n`-th non-blank line sees `host.db(n)`.

In three places the code does something other than the system's intended design. The model follows the code:

- The code does not sort the table listing. It relies on the `ORDER BY` of its catalogue query, so the model keeps the order in which the database returned the rows.
- The code does not keep the loop alive on every bad line, and it does not reply with a null id (see "## Findings").
- The code's error marker is `❌ DB Error: `.

## Model

| member | source | states |
|---|---|---|
| Json.Get | postgres_mcp.py:108-110 | `msg.get(key)` is the entry when the key is present and `None` when it is absent |
| Json.Decimal | postgres_mcp.py:184 | `str()` of an integer is a minus sign exactly for a negative number, then a canonical numeral (digits only, no leading zero) whose value is the number's magnitude |
| Json.DigitsSpell | postgres_mcp.py:184 | the digit string of a natural number reads back as that number |
| Text.StripSpec | postgres_mcp.py:42 | `strip()` returns a slice of its argument with only whitespace outside it and no whitespace at either end; it is empty exactly when the text is all whitespace |
| Text.StripUnique | postgres_mcp.py:42 | any slice with only whitespace outside it and no whitespace at its ends is what `strip()` returns |
| Text.StripIgnoresPadding | postgres_mcp.py:42 | adding whitespace around a text does not change its `strip()` |
| Text.Upper | postgres_mcp.py:42 | `upper()` keeps the length and upper-cases every character in place |
| Text.UpperStrip | postgres_mcp.py:42 | upper-casing and stripping commute |
| Text.SplitJoin | postgres_mcp.py:77 | splitting a `join` on its one-character separator gives the parts back when no part contains the separator |
| Gateway.IsSelectIgnoresPadding | postgres_mcp.py:42 | leading and trailing whitespace do not change the guard's verdict |
| Gateway.IsSelectIgnoresCase | postgres_mcp.py:42 | two queries equal up to letter case get the same verdict |
| Gateway.RejectedQueryIgnoresDatabase | postgres_mcp.py:41-43 | a rejected query answers `❌ Error: Only SELECT allowed.` whatever the database holds, so no connection is needed |
| Gateway.AcceptedQueryDependsOnOutcome | postgres_mcp.py:45-58 | an accepted query's answer depends only on the outcome of executing that query text |
| Gateway.QueryDbAnswers | postgres_mcp.py:41-58 | the rejection text appears iff the guard fails; `No results` appears iff the accepted query returned no rows; the `❌ DB Error: ` prefix appears iff it raised, followed by the cause; rows give their dump |
| Gateway.DbErrorIsMarked | postgres_mcp.py:57-58 | a DB error text starts with its marker and differs from every sentinel |
| Gateway.Bullets | postgres_mcp.py:77 | one line `"- " + name` per table name, in order |
| Gateway.ListTablesLines | postgres_mcp.py:74-77 | a non-empty listing, split on newlines, is exactly `"- " + name` per row, in the order returned, with no trailing newline |
| Gateway.ListTablesAnswers | postgres_mcp.py:61-80 | `No tables` appears iff the catalogue is empty, and the error prefix iff the database raised, followed by the cause |
| Gateway.NotFoundNamesTable | postgres_mcp.py:96-97 | the not-found message holds the table name at a fixed offset and starts with ``Table ` `` |
| Gateway.DescribeTableAnswers | postgres_mcp.py:83-102 | the not-found message appears iff no column rows came back, the error prefix iff the database raised, followed by the cause, and otherwise the answer is the JSON dump of the column rows looked up for that name |
| Dispatch.FormatText | postgres_mcp.py:34-36 | the block reads back as `str(value)`, and a string is carried unchanged |
| Dispatch.HandleSpec | postgres_mcp.py:107-201 | `handle` raises iff the message is not well shaped, and then an `AttributeError`; returns `None` iff it is the notification; every response echoes `msg.get("id")` and is a result or an error object; an error response is `-32601` for a method outside the four |
| Dispatch.CallToolSpec | postgres_mcp.py:170-184 | the `tools/call` branch raises iff params, arguments or query have a type it cannot read, and then an `AttributeError` |
| Dispatch.InitializeIsAnswered | postgres_mcp.py:115-130 | `initialize` gets the fixed server description with the request id |
| Dispatch.ToolsListIsAnswered | postgres_mcp.py:133-167 | `tools/list` gets the fixed catalogue with the request id |
| Dispatch.CatalogueMatchesDispatch | postgres_mcp.py:137-181 | the catalogue lists three tools, and a tool name is dispatched iff the catalogue lists it |
| Dispatch.UnknownMethodIsMethodNotFound | postgres_mcp.py:198-201 | any other method gets `{"id": id, "error": {"code": -32601, "message": "Unknown method: " + str(method)}}` |
| Dispatch.ToolCallRoutes | postgres_mcp.py:170-181 | the tool is picked by exact name: `query_database` sends the given query text to `query_db`, `describe_table` sends the given `table_name` (default `""`) to `describe_table`, and `list_tables` calls `list_tables()` |
| Dispatch.ToolCallIsSingleTextBlock | postgres_mcp.py:170-191 | a `tools/call` that does not raise answers with a result, never an error, whose content is one text block holding the tool's output |
| Dispatch.UnknownToolText | postgres_mcp.py:183-184 | an unknown tool name gives the text `Unknown tool: ` followed by `str(name)`, and `Unknown tool: None` for a missing name |
| Dispatch.MissingParamsIsEmpty | postgres_mcp.py:110 | missing `params` behaves as `{}` |
| Dispatch.MissingArgumentsIsEmpty | postgres_mcp.py:172 | missing `arguments` behaves as `{}` |
| Dispatch.MissingQueryIsEmpty | postgres_mcp.py:174-175 | a missing `query` behaves as `""`, which the guard rejects |
| Dispatch.MissingTableNameIsEmpty | postgres_mcp.py:180-181 | a missing `table_name` behaves as `""` |
| Dispatch.ListTablesIgnoresArguments | postgres_mcp.py:177-178 | `list_tables` answers the same whatever the other parameters hold |
| Transport.Send | postgres_mcp.py:28-31 | `send` adds `jsonrpc: "2.0"` only when the key is absent and keeps every other entry |
| Transport.SendIsIdempotent | postgres_mcp.py:30 | stamping twice is stamping once |
| Transport.HandleLine | postgres_mcp.py:218-229 | the `try`/`except` of one line writes, rebinds `msg` and raises exactly as the one-line step of the loop function says |
| Transport.Serve | postgres_mcp.py:206-229 | the loop writes exactly the objects, and ends exactly as, the run function gives for the lines read |
| Transport.RunLinesEnd | postgres_mcp.py:210-212 | unfolding step of the run: an empty read ends the loop with nothing written |
| Transport.RunLinesBlank | postgres_mcp.py:214-216 | unfolding step of the run: a whitespace-only line moves on to the next line |
| Transport.RunLinesStep | postgres_mcp.py:218-229 | unfolding step of the run: a non-blank line takes one `try`/`except` step, then the rest |
| Transport.EndOfStreamStops | postgres_mcp.py:210-212 | nothing after an empty read is ever looked at |
| Transport.BlankLineIsSkipped | postgres_mcp.py:214-216 | removing a whitespace-only line anywhere does not change the run |
| Transport.NotificationIsSilent | postgres_mcp.py:222-223 | the notification writes nothing, and the loop goes on |
| Transport.AnsweredLineWritesOne | postgres_mcp.py:219-223 | a line `handle` answers writes exactly that answer, stamped, carrying the request's id |
| Transport.HandlerExceptionIsReported | postgres_mcp.py:225-229 | when `handle` raises for a dict message, one `-32000` error with that message's id and `str(e)` is written, and the loop goes on; `-32000` differs from `-32601` |
| Transport.RunWritesRpcLines | postgres_mcp.py:209-229 | every object the loop writes is a JSON-RPC 2.0 response with `jsonrpc`, `id` and exactly one of `result` and `error` |
| Transport.CycleWritesRpcLines | postgres_mcp.py:218-229 | one line writes at most one object, and it is such a response |
| Transport.MalformedFirstLineCrashes | postgres_mcp.py:225-227 | a malformed line read before any line decoded ends the loop with an unbound-`msg` error and writes nothing |
| Transport.MalformedLineGetsStaleId | postgres_mcp.py:225-229 | a malformed line read after a dict decoded is answered with that earlier message's id |
| Transport.NonObjectMessageCrashes | postgres_mcp.py:227 | a line that decodes to a non-dict ends the loop with an `AttributeError` on `get` |
| Transport.ExampleLinesStrip | postgres_mcp.py:214 | the two example lines, read with their line feeds, strip to the example texts |
| Transport.StaleIdExample | postgres_mcp.py:218-229 | the input `{"id": 1, "method": "tools/list"}` then `oops` writes the catalogue with id 1 and then a `-32000` error also with id 1 |
| Transport.FixedMalformedLineGetsNullId | postgres_mcp.py:225-229 | corrected loop: a malformed line is answered with a null id whatever came before, and the loop goes on |
| Transport.FixedFailureGetsOwnId | postgres_mcp.py:225-229 | corrected loop: when `handle` raises, the reply carries the message's own id, null for a non-dict, and the loop goes on |
| Transport.RunFixedRepliesOnce | postgres_mcp.py:209-229 | corrected loop: exactly one well-formed reply per non-blank line except the notification, and only end-of-stream stops it |
| Transport.CycleFixedRepliesOnce | postgres_mcp.py:218-229 | corrected loop: one line writes one well-formed reply, none for the notification |
| Transport.FixAgreesOnDicts | postgres_mcp.py:209-229 | on input whose non-blank lines all decode to dicts, the loop as written never dies and writes what the corrected loop writes |

## Left out

- The psycopg2 connection, cursor and SQL execution are not modelled. The database is an input that gives rows or the text of an exception per statement. `conn.close()` is not modelled either, including the connection the code leaves open when `execute` or `fetchall` raises.
- `json.loads` and `json.dumps` are inputs. That covers `indent=2` and `default=str`. `json.dumps` is assumed never to raise. At postgres_mcp.py:55, `default=str` renders any value the encoder does not know. At :99, the catalogue columns are strings. In `send` at :31, the object holds only decoded JSON values and the server's own strings. So the model has no `❌ DB Error: …` answer caused by a dump, and no exception from `send`. Output is modelled as the sequence of stamped response objects, not as the text lines `print` writes.
- `log`, the standard-error stream, `DB_CONFIG`, the shebang and the `__main__` guard have no behaviour worth proving.
- Flushing and blocking reads are not modelled. Input is the finite sequence of values `sys.stdin.readline()` returns, and `""` or running out of lines is end-of-stream.
- Text.Upper: upper-cases the ASCII letters only. Python's full Unicode case mapping (for example `'ſ'.upper() == 'S'`, or a character that maps to two) is not modelled.
- Dict insertion order is not modelled, because dicts are maps. Key order in the written JSON is therefore not modelled.
- A float keeps only its literal text. `str()` of floats, lists and dicts is an input.
- Exceptions raised inside the database, JSON or `str()` inputs other than the modelled outcomes are not modelled (for example a `KeyboardInterrupt`, which `except Exception` does not catch). Any `Exception` that `json.loads` raises, a `RecursionError` on deep nesting included, is covered by the failure outcome of `loads`.

## Findings

| source | as written | input that shows it | evidently intended | confidence | as-written member | corrected member |
|---|---|---|---|---|---|---|
| postgres_mcp.py:225-227 | when `json.loads` fails on the first non-blank line, `msg` was never assigned; the `except` block raises `UnboundLocalError` and the server dies without a reply | first line `oops` | reply with a `-32000` error and a null id, then read on | not executed | Transport.MalformedFirstLineCrashes | Transport.FixedMalformedLineGetsNullId |
| postgres_mcp.py:227 | when `json.loads` fails on a later line, `msg` still holds the previous message, so the error carries that message's id | `{"id": 1, "method": "tools/list"}` then `oops` | null id, since the bad line's id cannot be determined | not executed | Transport.StaleIdExample | Transport.FixedMalformedLineGetsNullId |
| postgres_mcp.py:227 | a line that decodes to a non-dict makes `handle` raise on `msg.get`, and the `except` block raises again on `msg.get`, so the server dies | the line `[1]` | reply with a `-32000` error and a null id, then read on | not executed | Transport.NonObjectMessageCrashes | Transport.FixedFailureGetsOwnId |
