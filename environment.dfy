/** What the server calls but does not define: the PostgreSQL database
    (through psycopg2), the JSON decoder and encoder, and Python's `str()` of
    compound values. Each is an input to the model. */
module Environment {
  import opened Wrappers
  import opened Json

  /** A row of a dictionary cursor: its columns, in select-list order, with
      their values as `json.dumps` would see them. */
  type Row = seq<(string, Json)>

  /** What one database call yields: the fetched rows, or the text `str(e)` of
      the exception raised while connecting, executing or fetching. */
  datatype DbOutcome<R> = Rows(rows: seq<R>) | Raised(cause: string)

  /** The database as one request sees it, one entry per statement the server
      sends:
      - `select(q)`: executing the caller's query text `q` verbatim;
      - `tableNames`: the `table_name` column of the catalogue query over the
        `public` schema, in the order the database returns it;
      - `columns(name)`: the column name / type / nullability rows for the
        bound parameter `name`, in ordinal order. */
  datatype Database = Database(
    select: string -> DbOutcome<Row>,
    tableNames: DbOutcome<string>,
    columns: Json -> DbOutcome<Row>)

  /** The rest of the process's surroundings:
      - `loads`: `json.loads` of a line, or the message of its decode error;
      - `repr`: `str()` of a float, list or dict;
      - `dumpRows`: `json.dumps(rows, indent=2, default=str)`;
      - `dumpColumns`: `json.dumps(rows, indent=2)`;
      - `db(n)`: the database as the `n`-th dispatched line finds it. */
  datatype Host = Host(
    loads: string -> Result<Json, string>,
    repr: Json -> string,
    dumpRows: seq<Row> -> string,
    dumpColumns: seq<Row> -> string,
    db: nat -> Database)

  /** `json.dumps` of a list always starts with `[`. */
  ghost predicate DumpsLists(host: Host)
  {
    && (forall rows :: |host.dumpRows(rows)| > 0 && host.dumpRows(rows)[0] == '[')
    && (forall rows :: |host.dumpColumns(rows)| > 0 && host.dumpColumns(rows)[0] == '[')
  }
}
