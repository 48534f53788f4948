/**
 * Running a generated query against the mock back end and exporting its
 * result (src/hooks/useQueryExecution.ts). Marking executed messages and
 * building the CSV text are pure; the controller that holds `activeQuery`,
 * `queryResults` and `isLoadingResults` is a class whose timer callback is
 * a second method.
 */
module QueryExecution {
  import opened Records
  import opened Strings
  import opened Storage
  import opened MockDatabase
  import opened SessionManagement

  // ---------------------------------------------------------------------
  // Marking executed messages (useQueryExecution.ts:34-36)
  // ---------------------------------------------------------------------

  /** `messages.map(msg => msg.query === query ? { ...msg, isExecuted: true } : msg)`:
      the match is on the query text, and a message without a query never
      matches. */
  function MarkExecuted(messages: seq<Message>, query: string): (r: seq<Message>)
    ensures |r| == |messages|
    ensures forall i :: 0 <= i < |messages| && messages[i].query == Some(query) ==>
      r[i] == messages[i].(isExecuted := Some(true))
    ensures forall i :: 0 <= i < |messages| && messages[i].query != Some(query) ==>
      r[i] == messages[i]
    decreases |messages|
  {
    if messages == [] then []
    else
      var m := messages[0];
      [if m.query == Some(query) then m.(isExecuted := Some(true)) else m]
        + MarkExecuted(messages[1..], query)
  }

  /** Marking twice with the same query is marking once. */
  lemma {:induction false} MarkExecutedIdempotent(messages: seq<Message>, query: string)
    ensures MarkExecuted(MarkExecuted(messages, query), query) == MarkExecuted(messages, query)
    decreases |messages|
  {
    if messages != [] {
      MarkExecutedIdempotent(messages[1..], query);
      assert MarkExecuted(messages, query)[1..] == MarkExecuted(messages[1..], query);
    }
  }

  /** The order in which two queries are marked does not matter. */
  lemma {:induction false} MarkExecutedCommutes(messages: seq<Message>, q1: string, q2: string)
    ensures MarkExecuted(MarkExecuted(messages, q1), q2) == MarkExecuted(MarkExecuted(messages, q2), q1)
    decreases |messages|
  {
    if messages != [] {
      MarkExecutedCommutes(messages[1..], q1, q2);
      assert MarkExecuted(messages, q1)[1..] == MarkExecuted(messages[1..], q1);
      assert MarkExecuted(messages, q2)[1..] == MarkExecuted(messages[1..], q2);
    }
  }

  /** Marking keeps every id, text, sender and query, and never turns an
      executed message back. */
  lemma MarkExecutedKeepsMessages(messages: seq<Message>, query: string, i: nat)
    requires i < |messages|
    ensures MarkExecuted(messages, query)[i].id == messages[i].id
    ensures MarkExecuted(messages, query)[i].text == messages[i].text
    ensures MarkExecuted(messages, query)[i].query == messages[i].query
    ensures messages[i].isExecuted == Some(true) ==> MarkExecuted(messages, query)[i].isExecuted == Some(true)
  {
  }

  // ---------------------------------------------------------------------
  // Results (useQueryExecution.ts:23-29)
  // ---------------------------------------------------------------------

  /** What `queryResults` holds: a table or a list of documents. */
  datatype QueryResult = SqlResult(table: Table) | NoSqlResult(documents: seq<Document>)

  /** The mock result for the database type the query was run under. */
  function RunMock(query: string, databaseType: DatabaseType): (r: QueryResult)
    ensures r.SqlResult? <==> databaseType == Sql
    ensures r.SqlResult? ==> r.table == GenerateMockSqlResults(query) && RowsFitColumns(r.table)
    ensures r.NoSqlResult? ==> r.documents == GenerateMockNoSqlResults(query) && |r.documents| >= 1
  {
    if databaseType == Sql then SqlResult(GenerateMockSqlResults(query))
    else NoSqlResult(GenerateMockNoSqlResults(query))
  }

  // ---------------------------------------------------------------------
  // CSV export (useQueryExecution.ts:50-55)
  // ---------------------------------------------------------------------

  /** `${v}` for a JSON value: strings as they are, integers in decimal,
      arrays joined with commas, objects as `[object Object]`. */
  function JsonText(v: Json): (r: string)
    ensures v.JInt? && v.number >= 0 ==>
      (forall i :: 0 <= i < |r| ==> IsDigit(r[i])) && DigitsValue(r) == v.number
    ensures v.JInt? && v.number < 0 ==>
      (|r| >= 2 && r[0] == '-' && (forall i :: 1 <= i < |r| ==> IsDigit(r[i])) && DigitsValue(r[1..]) == -v.number)
    decreases v
  {
    match v
    case JStr(s) => s
    case JInt(n) =>
      if n < 0 then
        NatToStringRoundTrip(-n);
        "-" + NatToString(-n)
      else
        NatToStringRoundTrip(n);
        NatToString(n)
    case JDecimal(literal) => literal
    case JArray(items) => Join(seq(|items|, i requires 0 <= i < |items| => JsonText(items[i])), ",")
    case JObject(_) => "[object Object]"
  }

  /** `${row[col]}`: a missing key reads as `undefined`. */
  function CellText(row: Row, column: string): string {
    if column in row then JsonText(row[column]) else "undefined"
  }

  /** `"${row[col]}"`: the value between double quotes, not escaped. */
  function Quoted(s: string): string {
    "\"" + s + "\""
  }

  /** The quoted fields of one row, in column order. */
  function CsvFields(columns: seq<string>, row: Row): seq<string> {
    seq(|columns|, j requires 0 <= j < |columns| => Quoted(CellText(row, columns[j])))
  }

  /** One data line per row. */
  function CsvLines(t: Table): seq<string> {
    seq(|t.rows|, i requires 0 <= i < |t.rows| => Join(CsvFields(t.columns, t.rows[i]), ","))
  }

  /** `${headers}\n${rows}`. */
  function CsvText(t: Table): string {
    Join(t.columns, ",") + "\n" + Join(CsvLines(t), "\n")
  }

  /** A table with no rows exports as the header line and a line feed. */
  lemma EmptyTableCsv(columns: seq<string>)
    ensures CsvText(Table(columns, [])) == Join(columns, ",") + "\n"
  {
  }

  /** No separator character in any column name or cell. */
  predicate CsvSafe(t: Table) {
    && (forall j :: 0 <= j < |t.columns| ==> ',' !in t.columns[j] && '\n' !in t.columns[j])
    && (forall i, j :: 0 <= i < |t.rows| && 0 <= j < |t.columns| ==>
          ',' !in CellText(t.rows[i], t.columns[j]) && '\n' !in CellText(t.rows[i], t.columns[j]))
  }

  /** Reading the text back: splitting on line feeds gives the header and
      one line per row (a lone empty line for no rows); splitting the header
      on commas gives the columns, and splitting a data line gives, for each
      column in order, the quoted text of that row's value. */
  lemma CsvReadsBack(t: Table)
    requires |t.columns| >= 1
    requires CsvSafe(t)
    ensures Split(CsvText(t), '\n') ==
      [Join(t.columns, ",")] + (if |t.rows| == 0 then [""] else CsvLines(t))
    ensures Split(Join(t.columns, ","), ',') == t.columns
    ensures forall i :: 0 <= i < |t.rows| ==>
      |Split(CsvLines(t)[i], ',')| == |t.columns| &&
      forall j :: 0 <= j < |t.columns| ==>
        Split(CsvLines(t)[i], ',')[j] == Quoted(CellText(t.rows[i], t.columns[j]))
  {
    var header := Join(t.columns, ",");
    var lines := CsvLines(t);
    JoinExcludes(t.columns, ",", '\n');
    SplitJoin(t.columns, ',');
    forall i | 0 <= i < |t.rows|
      ensures '\n' !in lines[i]
      ensures Split(lines[i], ',') == CsvFields(t.columns, t.rows[i])
    {
      var fields := CsvFields(t.columns, t.rows[i]);
      forall j | 0 <= j < |fields|
        ensures ',' !in fields[j] && '\n' !in fields[j]
      {
        assert fields[j] == Quoted(CellText(t.rows[i], t.columns[j]));
      }
      JoinExcludes(fields, ",", '\n');
      SplitJoin(fields, ',');
    }
    var all := [header] + (if |t.rows| == 0 then [""] else lines);
    assert Join(all, "\n") == CsvText(t) by {
      if |t.rows| == 0 {
        assert Join(all, "\n") == header + "\n" + Join([""], "\n");
      } else {
        assert all[1..] == lines;
      }
    }
    SplitJoin(all, '\n');
  }

  /** A value holding a double quote is written as it is, so the field's own
      quotes no longer delimit it: section 2 of RFC 4180 asks for the inner
      quote to be doubled, which this export does not do. */
  lemma QuoteNotDoubled()
    ensures CsvLines(Table(["name"], [map["name" := JStr("a\"b")]])) == ["\"a\"b\""]
    ensures CsvLines(Table(["name"], [map["name" := JStr("a\"b")]]))[0] != "\"a\"\"b\""
  {
    var t := Table(["name"], [map["name" := JStr("a\"b")]]);
    assert CellText(t.rows[0], "name") == "a\"b";
    assert Quoted("a\"b") == "\"a\"b\"";
    assert CsvFields(t.columns, t.rows[0]) == ["\"a\"b\""];
  }

  /** What `handleExportResults` does. */
  datatype ExportOutcome =
    | NothingToExport
    | CsvDownload(csv: string)
    | JsonDownload(result: QueryResult)
    | TypeErrorThrown

  /** The export rule: nothing without results; CSV of the table under SQL;
      the JSON of whatever is held under NoSQL; and documents held under SQL
      have no `columns`, so `columns.join` throws. */
  function ExportResults(results: Option<QueryResult>, databaseType: DatabaseType): (r: ExportOutcome)
    ensures r == NothingToExport <==> results.None?
    ensures r.CsvDownload? <==> results.Some? && results.value.SqlResult? && databaseType == Sql
    ensures r.CsvDownload? ==> r.csv == CsvText(results.value.table)
    ensures r.JsonDownload? <==> results.Some? && databaseType == NoSql
    ensures r.JsonDownload? ==> r.result == results.value
    ensures r.TypeErrorThrown? <==> results.Some? && results.value.NoSqlResult? && databaseType == Sql
  {
    match results
    case None => NothingToExport
    case Some(res) =>
      match databaseType
      case Sql =>
        (match res
         case SqlResult(t) => CsvDownload(CsvText(t))
         case NoSqlResult(_) => TypeErrorThrown)
      case NoSql => JsonDownload(res)
  }

  // ---------------------------------------------------------------------
  // The controller
  // ---------------------------------------------------------------------

  /** What the one-second timer callback captured when the query was run:
      the query, the render's database type and messages, and the render's
      current session, which the captured `updateMessagesInSession`
      spreads. */
  datatype PendingExecution = PendingExecution(
    query: string,
    databaseType: DatabaseType,
    messages: seq<Message>,
    rendered: Session)

  class QueryExecutionController {
    const session: SessionManager
    var activeQuery: Option<string>
    var queryResults: Option<QueryResult>
    var isLoadingResults: bool

    constructor (session: SessionManager)
      ensures this.session == session
      ensures activeQuery.None? && queryResults.None? && !isLoadingResults
    {
      this.session := session;
      activeQuery := None;
      queryResults := None;
      isLoadingResults := false;
    }

    /** `handleExecuteQuery(query)`, up to the timer: the query becomes
        active and loading starts; the results are not touched yet. */
    method HandleExecuteQuery(query: string) returns (pending: PendingExecution)
      modifies this
      ensures activeQuery == Some(query) && isLoadingResults
      ensures queryResults == old(queryResults)
      ensures pending == PendingExecution(query, session.databaseType, session.messages, session.currentSession)
    {
      activeQuery := Some(query);
      isLoadingResults := true;
      pending := PendingExecution(query, session.databaseType, session.messages, session.currentSession);
    }

    /** The timer callback: store the mock result, stop loading, and hand
        the captured messages, with the query marked, to the session through
        the captured updater, which writes the captured session. */
    method CompleteExecution(pending: PendingExecution)
      modifies this, session, session.store
      ensures queryResults == Some(RunMock(pending.query, pending.databaseType))
      ensures !isLoadingResults
      ensures activeQuery == old(activeQuery)
      ensures session.messages == MarkExecuted(pending.messages, pending.query)
      ensures session.currentSession == pending.rendered.(messages := session.messages)
      ensures session.databaseType == old(session.databaseType)
      ensures session.sessions ==
        ReplaceById(old(session.sessions), pending.rendered.id, session.currentSession)
      ensures session.store.entries ==
        PersistedSessions(old(session.store.entries)[CurrentSessionKey := SessionRecord(session.currentSession)],
                          session.sessions)
      ensures session.Valid() <==> session.databaseType == pending.rendered.databaseType
      ensures old(session.store.Valid()) ==> session.store.Valid()
    {
      queryResults := Some(RunMock(pending.query, pending.databaseType));
      isLoadingResults := false;
      var updated := MarkExecuted(pending.messages, pending.query);
      session.UpdateMessagesAsRendered(pending.rendered, updated);
    }

    /** `handleExportResults()`: reads the state and changes none of it. */
    method HandleExportResults() returns (outcome: ExportOutcome)
      ensures outcome == ExportResults(queryResults, session.databaseType)
      ensures outcome == NothingToExport <==> queryResults.None?
    {
      if queryResults.None? {
        return NothingToExport;
      }
      match queryResults.value
      case SqlResult(t) =>
        if session.databaseType == Sql {
          outcome := CsvDownload(CsvText(t));
        } else {
          outcome := JsonDownload(queryResults.value);
        }
      case NoSqlResult(_) =>
        if session.databaseType == Sql {
          outcome := TypeErrorThrown;
        } else {
          outcome := JsonDownload(queryResults.value);
        }
    }
  }
}
