/** The three database functions of the server: `query_db`, `list_tables`
    and `describe_table`. Each turns one database call into one text, and
    none of them lets a database exception escape. */
module Gateway {
  import opened Wrappers
  import opened Json
  import opened Text
  import opened Environment

  const SelectOnly: string := "\U{274C} Error: Only SELECT allowed."
  const DbErrorPrefix: string := "\U{274C} DB Error: "
  const NoResults: string := "No results"
  const NoTables: string := "No tables"

  /** The guard of `query_db`: the stripped, upper-cased query starts with
      `SELECT`. */
  predicate IsSelect(query: string)
  {
    StartsWith(Upper(Strip(query)), "SELECT")
  }

  /** `f"❌ DB Error: {e}"`. */
  function DbError(cause: string): string
  {
    DbErrorPrefix + cause
  }

  /** `query_db(query)`: the guard runs before any connection is made; a
      query that passes it is sent to the database as written. */
  function QueryDb(query: string, db: Database, host: Host): string
  {
    if !IsSelect(query) then SelectOnly
    else
      match db.select(query)
      case Raised(cause) => DbError(cause)
      case Rows(rows) => if rows == [] then NoResults else host.dumpRows(rows)
  }

  /** The lines of a non-empty `list_tables` answer: `"- " + name` per row. */
  function Bullets(names: seq<string>): (lines: seq<string>)
    ensures |lines| == |names|
    ensures forall k :: 0 <= k < |names| ==> lines[k] == "- " + names[k]
  {
    if names == [] then [] else ["- " + names[0]] + Bullets(names[1..])
  }

  /** `list_tables()`. */
  function ListTables(db: Database): string
  {
    match db.tableNames
    case Raised(cause) => DbError(cause)
    case Rows(names) => if names == [] then NoTables else Join(Bullets(names), "\n")
  }

  /** ``f"Table `{name}` not found."`` */
  function NotFound(name: string): string
  {
    "Table `" + name + "` not found."
  }

  /** `describe_table(name)`; `name` is whatever the caller passed, bound as
      a statement parameter. */
  function DescribeTable(name: Json, db: Database, host: Host): string
  {
    match db.columns(name)
    case Raised(cause) => DbError(cause)
    case Rows(rows) => if rows == [] then NotFound(PyStr(name, host.repr)) else host.dumpColumns(rows)
  }

  // ---------------------------------------------------------------------
  // The SELECT guard

  /** Whitespace around a query does not change the guard's verdict. */
  lemma {:induction false} IsSelectIgnoresPadding(w1: string, query: string, w2: string)
    requires AllSpace(w1) && AllSpace(w2)
    ensures IsSelect(w1 + query + w2) == IsSelect(query)
  {
    StripIgnoresPadding(w1, query, w2);
  }

  /** Two queries that differ only in letter case get the same verdict. */
  lemma {:induction false} IsSelectIgnoresCase(q1: string, q2: string)
    requires Upper(q1) == Upper(q2)
    ensures IsSelect(q1) == IsSelect(q2)
  {
    UpperStrip(q1);
    UpperStrip(q2);
  }

  /** A rejected query never reaches the database: its answer is the same
      whatever the database holds. */
  lemma {:induction false} RejectedQueryIgnoresDatabase(query: string, db1: Database, db2: Database, host: Host)
    requires !IsSelect(query)
    ensures QueryDb(query, db1, host) == QueryDb(query, db2, host) == SelectOnly
  {
  }

  /** An accepted query's answer depends only on what the database returned
      for that query text. */
  lemma {:induction false} AcceptedQueryDependsOnOutcome(query: string, db1: Database, db2: Database, host: Host)
    requires IsSelect(query) && db1.select(query) == db2.select(query)
    ensures QueryDb(query, db1, host) == QueryDb(query, db2, host)
  {
  }

  lemma {:induction false} DbErrorIsMarked(cause: string)
    ensures StartsWith(DbError(cause), DbErrorPrefix)
    ensures DbError(cause) != SelectOnly && DbError(cause) != NoResults && DbError(cause) != NoTables
    ensures |DbError(cause)| > 0 && DbError(cause)[0] == '\U{274C}'
  {
    assert DbError(cause)[..|DbErrorPrefix|] == DbErrorPrefix;
    assert DbError(cause)[2] == 'D' != SelectOnly[2];
  }

  /** The four answers of `query_db` can be told apart: each of the rejection,
      the empty-result sentinel and the error marker appears exactly when its
      case happened (given that a row dump, being a JSON list, starts with
      `[`). */
  lemma {:induction false} QueryDbAnswers(query: string, db: Database, host: Host)
    requires DumpsLists(host)
    ensures QueryDb(query, db, host) == SelectOnly <==> !IsSelect(query)
    ensures QueryDb(query, db, host) == NoResults <==> IsSelect(query) && db.select(query) == Rows([])
    ensures StartsWith(QueryDb(query, db, host), DbErrorPrefix) <==> IsSelect(query) && db.select(query).Raised?
    ensures IsSelect(query) && db.select(query).Raised? ==>
              QueryDb(query, db, host) == DbErrorPrefix + db.select(query).cause
    ensures IsSelect(query) && db.select(query).Rows? && db.select(query).rows != [] ==>
              QueryDb(query, db, host) == host.dumpRows(db.select(query).rows)
  {
    var r := QueryDb(query, db, host);
    assert SelectOnly[0] == '\U{274C}' && SelectOnly[2] == 'E' && NoResults[0] == 'N';
    assert !StartsWith(SelectOnly, DbErrorPrefix) by { assert SelectOnly[2] != DbErrorPrefix[2]; }
    assert !StartsWith(NoResults, DbErrorPrefix) by { assert NoResults[0] != DbErrorPrefix[0]; }
    if IsSelect(query) {
      match db.select(query)
      case Raised(cause) => DbErrorIsMarked(cause);
      case Rows(rows) =>
        if rows != [] {
          assert r[0] == '[';
          assert !StartsWith(r, DbErrorPrefix) by { assert r[0] != DbErrorPrefix[0]; }
        }
    }
  }

  // ---------------------------------------------------------------------
  // list_tables

  /** A non-empty `list_tables` answer is one line `"- " + name` per table,
      in the order the rows came back, with no trailing newline; this reads
      back exactly when no table name itself holds a newline. */
  lemma {:induction false} ListTablesLines(db: Database)
    requires db.tableNames.Rows? && db.tableNames.rows != []
    requires forall k :: 0 <= k < |db.tableNames.rows| ==> '\n' !in db.tableNames.rows[k]
    ensures var lines := Split(ListTables(db), '\n');
      && |lines| == |db.tableNames.rows|
      && forall k :: 0 <= k < |lines| ==> lines[k] == "- " + db.tableNames.rows[k]
  {
    var names := db.tableNames.rows;
    var lines := Bullets(names);
    forall k | 0 <= k < |lines| ensures '\n' !in lines[k] {
      assert lines[k] == "- " + names[k];
    }
    SplitJoin(lines, '\n');
  }

  /** The three answers of `list_tables` can be told apart: the `No tables`
      sentinel exactly for an empty catalogue, the error marker exactly for a
      database exception. */
  lemma {:induction false} ListTablesAnswers(db: Database)
    ensures ListTables(db) == NoTables <==> db.tableNames == Rows([])
    ensures StartsWith(ListTables(db), DbErrorPrefix) <==> db.tableNames.Raised?
    ensures db.tableNames.Raised? ==> ListTables(db) == DbErrorPrefix + db.tableNames.cause
  {
    assert !StartsWith(NoTables, DbErrorPrefix) by { assert NoTables[0] != DbErrorPrefix[0]; }
    match db.tableNames
    case Raised(cause) => DbErrorIsMarked(cause);
    case Rows(names) =>
      if names != [] {
        var r := ListTables(db);
        BulletsStart(Bullets(names), names);
        assert r[0] == '-';
        assert r != NoTables;
        assert !StartsWith(r, DbErrorPrefix) by { assert r[0] != DbErrorPrefix[0]; }
      }
  }

  lemma {:induction false} BulletsStart(lines: seq<string>, names: seq<string>)
    requires lines == Bullets(names) && names != []
    ensures |Join(lines, "\n")| > 0 && Join(lines, "\n")[0] == '-'
  {
    assert lines[0] == "- " + names[0];
    if |lines| > 1 {
      assert Join(lines, "\n") == lines[0] + "\n" + Join(lines[1..], "\n");
    }
  }

  // ---------------------------------------------------------------------
  // describe_table

  /** The not-found message names the table and is never empty. */
  lemma {:induction false} NotFoundNamesTable(name: string)
    ensures var m := NotFound(name);
      && |m| > |name|
      && m[7..7 + |name|] == name
      && StartsWith(m, "Table `")
  {
  }

  /** The three answers of `describe_table` can be told apart: the not-found
      message exactly when no column rows came back, the error marker exactly
      for a database exception. */
  lemma {:induction false} DescribeTableAnswers(name: Json, db: Database, host: Host)
    requires DumpsLists(host)
    ensures DescribeTable(name, db, host) == NotFound(PyStr(name, host.repr)) <==> db.columns(name) == Rows([])
    ensures StartsWith(DescribeTable(name, db, host), DbErrorPrefix) <==> db.columns(name).Raised?
    ensures db.columns(name).Raised? ==> DescribeTable(name, db, host) == DbErrorPrefix + db.columns(name).cause
    ensures db.columns(name).Rows? && db.columns(name).rows != [] ==>
              DescribeTable(name, db, host) == host.dumpColumns(db.columns(name).rows)
  {
    var m := NotFound(PyStr(name, host.repr));
    assert m[0] == 'T';
    assert !StartsWith(m, DbErrorPrefix) by { assert m[0] != DbErrorPrefix[0]; }
    match db.columns(name)
    case Raised(cause) => DbErrorIsMarked(cause);
    case Rows(rows) =>
      if rows != [] {
        var r := DescribeTable(name, db, host);
        assert r[0] == '[';
        assert r != m;
        assert !StartsWith(r, DbErrorPrefix) by { assert r[0] != DbErrorPrefix[0]; }
      }
  }
}
