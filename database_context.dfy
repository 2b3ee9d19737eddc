/** `DatabaseContext`: the context-layer version of the query, schema,
    connection and transaction handlers. Most of its handlers repeat the
    providers' code and are modelled there; this module holds what the
    context does differently: it quotes identifiers with its own
    `sanitizeIdentifier`, which drops empty pieces, and it owns the registry,
    the transaction managers, the result cache and the history together. */
module DatabaseContexts {
  import opened Wrappers
  import opened Strings
  import opened Lists
  import opened Requests
  import opened ResultSets
  import opened JsonUtils
  import opened SqlValidation
  import opened ConnectionUtils
  import opened ConnectionRegistries
  import opened QueryProviders
  import opened SchemaProviders
  import opened TransactionProviders
  import opened ConnectionProviders
  import opened SqlServerDrivers

  // ---------------------------------------------------------------------------
  // sanitizeIdentifier
  // ---------------------------------------------------------------------------

  predicate NonEmpty(piece: seq<char>) {
    piece != []
  }

  /** The non-empty pieces between the dots of an identifier, in order. */
  function Parts(identifier: seq<char>): seq<seq<char>> {
    Filter(SplitOn(identifier, '.'), NonEmpty)
  }

  /** Pieces bracketed one by one and joined with dots, the empty ones
      left out. */
  function SanitizedParts(pieces: seq<seq<char>>): seq<char> {
    Join(QuoteParts(Filter(pieces, NonEmpty)), ".")
  }

  /** `sanitizeIdentifier`: every non-empty piece between dots bracketed,
      with `]` doubled, and the pieces joined with dots. */
  function SanitizedIdentifier(identifier: seq<char>): seq<char> {
    SanitizedParts(SplitOn(identifier, '.'))
  }

  /** Quoted non-empty pieces join to the empty text only when there are
      none. */
  lemma QuotedNonEmpty(kept: seq<seq<char>>)
    requires forall k :: 0 <= k < |kept| ==> kept[k] != []
    ensures Join(QuoteParts(kept), ".") == [] <==> kept == []
  {
    if kept != [] {
      assert QuoteParts(kept)[0] == QuotePart(kept[0]);
      JoinPrefix(QuoteParts(kept), ".");
    }
  }

  /** Every piece `Filter` keeps is non-empty. */
  lemma KeptNonEmpty(pieces: seq<seq<char>>)
    ensures forall k :: 0 <= k < |Filter(pieces, NonEmpty)| ==> Filter(pieces, NonEmpty)[k] != []
  {
    forall k | 0 <= k < |Filter(pieces, NonEmpty)| ensures Filter(pieces, NonEmpty)[k] != [] {
      FilterPasses(pieces, NonEmpty, k);
    }
  }

  /** One more piece: an empty one changes nothing; another is appended,
      after a dot unless it is the first written. */
  lemma SanitizedSnoc(pieces: seq<seq<char>>, p: seq<char>)
    ensures SanitizedParts(pieces + [p]) ==
      if p == [] then SanitizedParts(pieces)
      else SanitizedParts(pieces) + ((if SanitizedParts(pieces) == [] then "" else ".") + QuotePart(p))
  {
    var kept := Filter(pieces, NonEmpty);
    FilterAppend(pieces, [p], NonEmpty);
    assert [p][1..] == [];
    if p == [] {
      assert Filter([p], NonEmpty) == [];
      assert kept + [] == kept;
    } else {
      assert Filter([p], NonEmpty) == [p];
      assert QuoteParts(kept + [p]) == QuoteParts(kept) + [QuotePart(p)];
      JoinAppendOne(QuoteParts(kept), QuotePart(p), ".");
      KeptNonEmpty(pieces);
      QuotedNonEmpty(kept);
    }
  }

  /** `find(c, start)`: the first position from `start` on that holds `c`. */
  function Find(s: seq<char>, c: char, start: nat): (r: Option<nat>)
    requires start <= |s|
    ensures r.Some? ==> start <= r.value < |s| && s[r.value] == c && c !in s[start..r.value]
    ensures r.None? ==> c !in s[start..]
  {
    match IndexOf(s[start..], c)
    case None => None
    case Some(k) =>
      assert s[start..][..k] == s[start..start + k];
      Some(start + k)
  }

  /** The piece before the next dot is the next piece of the split. */
  lemma PieceAtDot(identifier: seq<char>, start: nat, dot: nat, done: seq<seq<char>>)
    requires start <= dot < |identifier| && identifier[dot] == '.' && '.' !in identifier[start..dot]
    ensures done + SplitOn(identifier[start..], '.') == (done + [identifier[start..dot]]) + SplitOn(identifier[dot + 1..], '.')
  {
    var part := identifier[start..dot];
    var rest := identifier[dot + 1..];
    assert identifier[start..] == part + ['.'] + rest;
    SplitOnCons(part, '.', rest);
  }

  /** One piece of the loop: bracketed, and appended after a dot unless it
      is the first written; an empty piece is left out. */
  method AppendSanitized(result: seq<char>, ghost done: seq<seq<char>>, part: seq<char>) returns (r: seq<char>)
    requires result == SanitizedParts(done)
    ensures r == SanitizedParts(done + [part])
  {
    var quoted := QuoteSinglePart(part);
    SanitizedSnoc(done, part);
    r := result;
    if quoted != [] {
      var dot := if r != [] then "." else "";
      r := r + (dot + quoted);
    }
  }

  /** `sanitizeIdentifier`: the pieces found dot by dot, the last one after
      the loop. */
  method SanitizeIdentifier(identifier: seq<char>) returns (result: seq<char>)
    ensures result == SanitizedIdentifier(identifier)
  {
    if identifier == [] {
      assert SplitOn(identifier, '.') == [[]];
      var none: seq<seq<char>> := [[]];
      assert Filter(none, NonEmpty) == [] by {
        assert none[1..] == [];
      }
      return [];
    }
    result := [];
    var start := 0;
    ghost var done: seq<seq<char>> := [];
    var pos := Find(identifier, '.', start);
    while pos.Some?
      invariant start <= |identifier|
      invariant pos == Find(identifier, '.', start)
      invariant SplitOn(identifier, '.') == done + SplitOn(identifier[start..], '.')
      invariant result == SanitizedParts(done)
      decreases |identifier| - start
    {
      var part := identifier[start..pos.value];
      result := AppendSanitized(result, done, part);
      PieceAtDot(identifier, start, pos.value, done);
      done := done + [part];
      start := pos.value + 1;
      pos := Find(identifier, '.', start);
    }
    SplitOnAbsent(identifier[start..], '.');
    result := AppendSanitized(result, done, identifier[start..]);
  }

  /** The sanitised text is empty exactly when the identifier has no
      non-empty piece, the empty identifier included. */
  lemma SanitizedEmpty(identifier: seq<char>)
    ensures SanitizedIdentifier(identifier) == [] <==> Parts(identifier) == []
    ensures identifier == [] ==> SanitizedIdentifier(identifier) == []
  {
    KeptNonEmpty(SplitOn(identifier, '.'));
    QuotedNonEmpty(Parts(identifier));
    if identifier == [] {
      var none: seq<seq<char>> := [[]];
      assert Filter(none, NonEmpty) == [] by {
        assert none[1..] == [];
      }
    }
  }

  /** Reading the sanitised text back with `unquoteBracketIdentifier` gives
      the non-empty pieces joined by dots: only the empty pieces are lost. */
  lemma SanitizedUnquotes(identifier: seq<char>)
    ensures UnquoteIdentifier(SanitizedIdentifier(identifier)) == Join(Parts(identifier), ".")
  {
    var kept := Parts(identifier);
    KeptNonEmpty(SplitOn(identifier, '.'));
    if kept == [] {
      assert UnquotedParts([], 0) == [UnquotePart([])];
    } else {
      UnquoteQuotedParts(kept);
    }
  }

  /** An identifier without empty pieces (no leading, trailing or doubled
      dot) is sanitised exactly as `quoteBracketIdentifier` quotes it, and
      reads back unchanged. */
  lemma SanitizedRoundTrip(identifier: seq<char>)
    requires forall k :: 0 <= k < |SplitOn(identifier, '.')| ==> SplitOn(identifier, '.')[k] != []
    ensures SanitizedIdentifier(identifier) == QuoteIdentifier(identifier)
    ensures UnquoteIdentifier(SanitizedIdentifier(identifier)) == identifier
  {
    var pieces := SplitOn(identifier, '.');
    FilterAll(pieces, NonEmpty);
    SanitizedUnquotes(identifier);
    SplitOnJoin(identifier, '.');
  }

  /** A non-empty sanitised text is accepted by the scan of
      `isValidIdentifier`: every piece is closed and non-empty, and dots
      appear only between pieces. */
  lemma SanitizedValid(identifier: seq<char>, alnum: char -> bool)
    requires Parts(identifier) != []
    ensures ValidFrom(SanitizedIdentifier(identifier), 0, false, false, alnum)
  {
    var w := SanitizedIdentifier(identifier);
    assert w[0..] == w;
    QuotedJoinValid(w, 0, Parts(identifier), alnum);
  }

  // ---------------------------------------------------------------------------
  // The separator rule of the context's row loops
  // ---------------------------------------------------------------------------

  /** The context's `handleGetDatabases` and `handleGetTableDDL` loops as
      written: a row that passes the test is preceded by `sep` whenever its
      index is not 0, even when every row before it was skipped. */
  function IndexSeparated(rows: seq<ResultRow>, keep: ResultRow -> bool, fmt: ResultRow -> seq<char>, sep: seq<char>): seq<char>
  {
    if rows == [] then []
    else
      var n := |rows| - 1;
      IndexSeparated(rows[..n], keep, fmt, sep)
      + (if keep(rows[n]) then (if n > 0 then sep else []) + fmt(rows[n]) else [])
  }

  /** The case the index rule gets wrong: the first row is skipped and a
      later one is not. */
  predicate StrayLead(rows: seq<ResultRow>, keep: ResultRow -> bool) {
    rows != [] && !keep(rows[0]) && Filter(rows, keep) != []
  }

  /** The index rule writes what the first-row flag of `buildRowArray`
      writes, with one separator in front exactly in the stray case. */
  lemma {:induction false} IndexSeparatedLead(rows: seq<ResultRow>, keep: ResultRow -> bool, fmt: ResultRow -> seq<char>,
                                              sep: seq<char>)
    ensures IndexSeparated(rows, keep, fmt, sep)
         == (if StrayLead(rows, keep) then sep else []) + Join(Map(Filter(rows, keep), fmt), sep)
    decreases |rows|
  {
    if rows != [] {
      var n := |rows| - 1;
      var init := rows[..n];
      IndexSeparatedLead(init, keep, fmt, sep);
      FilterSnoc(rows, n, keep);
      assert rows[..n + 1] == rows;
      if keep(rows[n]) {
        IndexKeptStep(rows, keep, fmt, sep);
      } else {
        assert Filter(rows, keep) == Filter(init, keep) + [];
        assert IndexSeparated(rows, keep, fmt, sep) == IndexSeparated(init, keep, fmt, sep) + [];
        if n > 0 {
          assert rows[0] == init[0];
          assert StrayLead(rows, keep) == StrayLead(init, keep);
        }
        assert Filter(rows, keep) == Filter(init, keep);
        assert IndexSeparated(rows, keep, fmt, sep) == IndexSeparated(init, keep, fmt, sep);
      }
    }
  }

  /** The step of `IndexSeparatedLead` for a last row that is kept. */
  lemma IndexKeptStep(rows: seq<ResultRow>, keep: ResultRow -> bool, fmt: ResultRow -> seq<char>, sep: seq<char>)
    requires rows != [] && keep(rows[|rows| - 1])
    requires var init := rows[..|rows| - 1];
      Filter(rows, keep) == Filter(init, keep) + [rows[|rows| - 1]]
      && IndexSeparated(init, keep, fmt, sep) == (if StrayLead(init, keep) then sep else []) + Join(Map(Filter(init, keep), fmt), sep)
    ensures IndexSeparated(rows, keep, fmt, sep)
         == (if StrayLead(rows, keep) then sep else []) + Join(Map(Filter(rows, keep), fmt), sep)
  {
    var n := |rows| - 1;
    var init := rows[..n];
    var x := rows[n];
    var kept := Filter(init, keep);
    MapAppend(kept, [x], fmt);
    assert Map([x], fmt) == [fmt(x)];
    JoinAppendOne(Map(kept, fmt), fmt(x), sep);
    assert Map(kept, fmt) == [] <==> kept == [];
    if n > 0 {
      assert rows[0] == init[0];
      if kept == [] {
        FilterMembers(init, keep, init[0]);
      }
    }
  }

  // ---------------------------------------------------------------------------
  // handleGetDatabases
  // ---------------------------------------------------------------------------

  /** The database list as the context's loop writes it. */
  function DatabaseNamesAsWritten(rows: seq<ResultRow>): seq<char> {
    "[" + IndexSeparated(rows, Wide(1), FirstCell, ",") + "]"
  }

  /** The context's list is the provider's `buildRowArray` list, except
      that in the stray case it opens with a comma, and then it is no
      longer a JSON array. */
  lemma DatabaseNamesAsWrittenDiffer(rows: seq<ResultRow>)
    ensures !StrayLead(rows, Wide(1)) ==> DatabaseNamesAsWritten(rows) == RowArrayText(rows, 1, FirstCell)
    ensures StrayLead(rows, Wide(1)) ==>
              DatabaseNamesAsWritten(rows) == "[," + Join(Map(Filter(rows, Wide(1)), FirstCell), ",") + "]"
              && |DatabaseNamesAsWritten(rows)| == |RowArrayText(rows, 1, FirstCell)| + 1
  {
    var body := Join(Map(Filter(rows, Wide(1)), FirstCell), ",");
    var lead := IndexSeparated(rows, Wide(1), FirstCell, ",");
    IndexSeparatedLead(rows, Wide(1), FirstCell, ",");
    assert RowArrayText(rows, 1, FirstCell) == "[" + body + "]";
    BracketedLead(lead, body, StrayLead(rows, Wide(1)));
  }

  /** A bracketed list with and without the stray separator. */
  lemma BracketedLead(lead: seq<char>, body: seq<char>, stray: bool)
    requires lead == (if stray then "," else []) + body
    ensures !stray ==> "[" + lead + "]" == "[" + body + "]"
    ensures stray ==> "[" + lead + "]" == "[," + body + "]" && |"[" + lead + "]"| == |"[" + body + "]"| + 1
  {
    if stray {
      assert "[" + lead == "[," + body;
    }
  }

  /** An empty row followed by the name `x`: the context writes `[,"x"]`,
      `buildRowArray` writes `["x"]`. */
  lemma DatabaseNamesCounterexample()
    ensures DatabaseNamesAsWritten([ResultRow([]), ResultRow(["x"])]) == "[,\"x\"]"
    ensures RowArrayText([ResultRow([]), ResultRow(["x"])], 1, FirstCell) == "[\"x\"]"
  {
    var rows := [ResultRow([]), ResultRow(["x"])];
    assert rows[..1] == [ResultRow([])];
    assert rows[1..] == [ResultRow(["x"])];
    assert [ResultRow([])][..0] == [];
    EscapeIdentity("x");
    assert FirstCell(ResultRow(["x"])) == "\"x\"";
    assert Filter(rows, Wide(1)) == [ResultRow(["x"])] by {
      assert [ResultRow(["x"])][1..] == [];
    }
    assert Map([ResultRow(["x"])], FirstCell) == ["\"x\""];
  }

  // ---------------------------------------------------------------------------
  // handleGetTableDDL
  // ---------------------------------------------------------------------------

  /** One column of the table, named through `sanitizeIdentifier`. Only
      rows with seven values are written. */
  function ContextColumnDef(row: ResultRow): seq<char> {
    if |row.values| < 7 then [] else "    " + SanitizedIdentifier(row.values[0]) + ColumnSpec(row.values)
  }

  /** The column lines as the context's loop writes them. */
  function ColumnsAsWritten(rows: seq<ResultRow>): seq<char> {
    IndexSeparated(rows, Wide(7), ContextColumnDef, ",\n")
  }

  /** The column lines with a separator between the lines written only. */
  function ContextColumnsText(rows: seq<ResultRow>): seq<char> {
    Join(Map(Filter(rows, Wide(7)), ContextColumnDef), ",\n")
  }

  /** The loop as written agrees with the intended column list except in
      the stray case, where the list opens with `,` and a line break right
      after `CREATE TABLE t (`. */
  lemma ColumnsAsWrittenDiffer(rows: seq<ResultRow>)
    ensures !StrayLead(rows, Wide(7)) ==> ColumnsAsWritten(rows) == ContextColumnsText(rows)
    ensures StrayLead(rows, Wide(7)) ==>
              ColumnsAsWritten(rows) == ",\n" + ContextColumnsText(rows)
              && ColumnsAsWritten(rows) != ContextColumnsText(rows)
  {
    IndexSeparatedLead(rows, Wide(7), ContextColumnDef, ",\n");
  }

  /** A short row before a full one: the context writes a separator before
      the only column. */
  lemma ColumnsCounterexample(row: ResultRow)
    requires |row.values| >= 7
    ensures ColumnsAsWritten([ResultRow([]), row]) == ",\n" + ContextColumnDef(row)
    ensures ContextColumnsText([ResultRow([]), row]) == ContextColumnDef(row)
  {
    var rows := [ResultRow([]), row];
    assert Filter(rows, Wide(7)) == [row] by {
      assert rows[1..] == [row];
      assert [row][1..] == [];
    }
    assert Map([row], ContextColumnDef) == [ContextColumnDef(row)];
    assert StrayLead(rows, Wide(7));
    ColumnsAsWrittenDiffer(rows);
  }

  /** The intended column list starts with a column line, never with a
      separator, and is empty exactly when no row has seven values. */
  lemma ContextColumnsStart(rows: seq<ResultRow>)
    ensures ContextColumnsText(rows) == [] <==> forall k :: 0 <= k < |rows| ==> |rows[k].values| < 7
    ensures ContextColumnsText(rows) != [] ==> |ContextColumnsText(rows)| >= 4 && ContextColumnsText(rows)[..4] == "    "
  {
    var kept := Filter(rows, Wide(7));
    if kept == [] {
      forall k | 0 <= k < |rows| ensures |rows[k].values| < 7 {
        FilterMembers(rows, Wide(7), rows[k]);
      }
    } else {
      ContextColumnsLead(rows, kept);
    }
  }

  lemma ContextColumnsLead(rows: seq<ResultRow>, kept: seq<ResultRow>)
    requires kept == Filter(rows, Wide(7)) && kept != []
    ensures exists k :: 0 <= k < |rows| && |rows[k].values| >= 7
    ensures |ContextColumnsText(rows)| >= 4 && ContextColumnsText(rows)[..4] == "    "
  {
    FilterPasses(rows, Wide(7), 0);
    FilterMembers(rows, Wide(7), kept[0]);
    ContextColumnDefStart(kept[0]);
    MapHead(kept, ContextColumnDef);
    JoinPrefix(Map(kept, ContextColumnDef), ",\n");
  }

  /** A column line starts with its indentation. */
  lemma ContextColumnDefStart(row: ResultRow)
    requires |row.values| >= 7
    ensures |ContextColumnDef(row)| >= 4 && ContextColumnDef(row)[..4] == "    "
  {
  }

  /** One key column: every key row is written, an empty one as nothing
      (the key query selects one column, so no row is empty). */
  function PkItem(row: ResultRow): seq<char> {
    if row.values == [] then [] else SanitizedIdentifier(row.values[0])
  }

  /** The primary key clause: none when the key query gave no row, else
      the constraint named after the table over the key columns, in
      order. */
  function ContextPkClause(table: seq<char>, pkRows: seq<ResultRow>): seq<char> {
    if pkRows == [] then []
    else ",\n    CONSTRAINT " + SanitizedIdentifier("PK_" + table) + " PRIMARY KEY (" + Join(Map(pkRows, PkItem), ", ") + ")"
  }

  function ContextDdl(table: seq<char>, columnRows: seq<ResultRow>, pkRows: seq<ResultRow>): seq<char> {
    "CREATE TABLE " + SanitizedIdentifier(table) + " (\n" + ContextColumnsText(columnRows) + ContextPkClause(table, pkRows) + "\n);"
  }

  /** The DDL names the table and its constraint by their non-empty
      pieces: both read back through `unquoteBracketIdentifier`. */
  lemma ContextDdlNames(table: seq<char>)
    ensures UnquoteIdentifier(SanitizedIdentifier(table)) == Join(Parts(table), ".")
    ensures UnquoteIdentifier(SanitizedIdentifier("PK_" + table)) == Join(Parts("PK_" + table), ".")
  {
    SanitizedUnquotes(table);
    SanitizedUnquotes("PK_" + table);
  }

  /** The catalog queries of the context look the table name up as given,
      without splitting off a schema. */
  function ContextColumnQuery(table: seq<char>): seq<char> {
    ColumnSelect + Literal(table) + ColumnOrder
  }

  function ContextPkQuery(table: seq<char>): seq<char> {
    PkSelect + Literal(table) + PkConstraint + Literal(table) + PkOrder
  }

  /** One column line, appended piece by piece. */
  method ContextColumnLine(row: ResultRow) returns (line: seq<char>)
    requires |row.values| >= 7
    ensures line == ContextColumnDef(row)
  {
    var name := SanitizeIdentifier(row.values[0]);
    var spec := ColumnSpecText(row.values);
    line := "    " + name + spec;
  }

  /** The column loop with the separator written only between columns. */
  method WriteContextColumns(rows: seq<ResultRow>) returns (text: seq<char>)
    ensures text == ContextColumnsText(rows)
  {
    var keep := Wide(7);
    text := [];
    var first := true;
    ghost var kept: seq<ResultRow> := [];
    for i := 0 to |rows|
      invariant kept == Filter(rows[..i], keep)
      invariant first <==> kept == []
      invariant text == Join(Map(kept, ContextColumnDef), ",\n")
    {
      if |rows[i].values| < 7 {
        SkipStep(rows, i, keep);
        continue;
      }
      var sep := if first then "" else ",\n";
      first := false;
      var line := ContextColumnLine(rows[i]);
      KeepStep(rows, i, keep, ContextColumnDef, ",\n", sep);
      text := text + (sep + line);
      kept := kept + [rows[i]];
    }
    assert rows[..|rows|] == rows;
  }

  /** The key column loop: `, ` before every row but the first. */
  method WriteContextPkColumns(rows: seq<ResultRow>) returns (text: seq<char>)
    ensures text == Join(Map(rows, PkItem), ", ")
  {
    text := [];
    for i := 0 to |rows|
      invariant text == Join(Map(rows[..i], PkItem), ", ")
    {
      var sep := if i > 0 then ", " else "";
      var item := [];
      if rows[i].values != [] {
        item := SanitizeIdentifier(rows[i].values[0]);
      }
      PkStep(rows, i);
      text := text + (sep + item);
    }
    assert rows[..|rows|] == rows;
  }

  lemma PkStep(rows: seq<ResultRow>, i: nat)
    requires i < |rows|
    ensures Join(Map(rows[..i + 1], PkItem), ", ")
         == Join(Map(rows[..i], PkItem), ", ") + ((if i > 0 then ", " else "") + PkItem(rows[i]))
  {
    MapSnoc(rows, i, PkItem);
    JoinAppendOne(Map(rows[..i], PkItem), PkItem(rows[i]), ", ");
  }

  /** The DDL text, built as the handler appends it. */
  method BuildContextDdl(table: seq<char>, columnRows: seq<ResultRow>, pkRows: seq<ResultRow>) returns (ddl: seq<char>)
    ensures ddl == ContextDdl(table, columnRows, pkRows)
  {
    var sanitizedTable := SanitizeIdentifier(table);
    var columns := WriteContextColumns(columnRows);
    ddl := "CREATE TABLE " + sanitizedTable + " (\n" + columns;
    if pkRows != [] {
      var name := SanitizeIdentifier("PK_" + table);
      var keyColumns := WriteContextPkColumns(pkRows);
      ddl := ddl + (",\n    CONSTRAINT " + name + " PRIMARY KEY (" + keyColumns + ")");
    } else {
      ddl := ddl + [];
    }
    ddl := ddl + "\n);";
  }

  /** `handleGetTableDDL` of the context: the same request checks as the
      provider, then the two catalog queries over the table name as given,
      and the DDL with every name through `sanitizeIdentifier`. */
  method GetContextTableDdl(request: Result<Json>, connections: set<seq<char>>, alnum: char -> bool,
                            run: seq<char> -> Result<ResultSet>) returns (response: seq<char>)
    ensures TableRequest(request, connections, alnum).Err? ==>
              response == ErrorResponse(TableRequest(request, connections, alnum).error)
    ensures TableRequest(request, connections, alnum).Ok? ==>
              var table := TableRequest(request, connections, alnum).value.1;
              var columns, keys := run(ContextColumnQuery(table)), run(ContextPkQuery(table));
              (columns.Err? ==> response == ErrorResponse(columns.error))
              && (columns.Ok? && keys.Err? ==> response == ErrorResponse(keys.error))
              && (columns.Ok? && keys.Ok? ==> response == SuccessResponse(DdlJson(ContextDdl(table, columns.value.rows, keys.value.rows))))
  {
    var extracted := TableRequest(request, connections, alnum);
    if extracted.Err? {
      return ErrorResponse(extracted.error);
    }
    var table := extracted.value.1;
    var columnResult := run(ContextColumnQuery(table));
    if columnResult.Err? {
      return ErrorResponse(columnResult.error);
    }
    var pkResult := run(ContextPkQuery(table));
    if pkResult.Err? {
      return ErrorResponse(pkResult.error);
    }
    var ddl := BuildContextDdl(table, columnResult.value.rows, pkResult.value.rows);
    var escaped := EscapeString(ddl);
    response := SuccessResponse("{\"ddl\":\"" + escaped + "\"}");
  }

  // ---------------------------------------------------------------------------
  // The context object
  // ---------------------------------------------------------------------------

  /** The context: the connection lifecycle (registry with its query
      drivers, and the metadata drivers), the query state (result cache and
      history) and the transaction managers, one object each. */
  class DatabaseContext {
    const connector: ConnectionProvider
    const queries: QueryProvider
    const transactions: TransactionProvider

    ghost predicate Valid()
      reads this, connector, connector.registry
    {
      connector.Valid()
    }

    constructor(driverPrefix: (seq<char>, seq<char>) -> seq<char>)
      ensures Valid() && fresh(connector) && fresh(connector.registry) && fresh(queries) && fresh(transactions)
      ensures connector.registry.connections == map[] && connector.metadata == map[]
      ensures queries.cache == map[] && queries.history == [] && transactions.managers == map[]
    {
      connector := new ConnectionProvider(driverPrefix);
      queries := new QueryProvider();
      transactions := new TransactionProvider();
    }

    /** The ids `getDriver` finds a query driver for. `getDatabases` and
        `getTableDdl` go through `getMetaDriver` instead; the two sets of
        ids agree because `ConnectionProvider.Valid()` keeps the metadata
        drivers and the query drivers under the same keys. */
    function Known(): set<seq<char>>
      reads this, connector, connector.registry
    {
      set id | id in connector.registry.connections && connector.registry.connections[id] != null
    }

    /** The query driver of each id that has one. */
    function Drivers(): map<seq<char>, SqlServerDriver>
      reads this, connector, connector.registry
    {
      map id | id in connector.registry.connections && connector.registry.connections[id] != null
        :: connector.registry.connections[id]
    }

    /** `handleDisconnect`: the id's transaction manager is dropped first,
        then the registry entry with both drivers; every other id keeps its
        manager and drivers. */
    method HandleDisconnect(request: Result<Json>) returns (response: seq<char>)
      requires Valid()
      modifies transactions, connector, connector.registry,
        if ExtractConnectionId(request).Ok? && ExtractConnectionId(request).value in connector.registry.connections
           && connector.registry.connections[ExtractConnectionId(request).value] != null
        then {connector.registry.connections[ExtractConnectionId(request).value]} else {},
        if ExtractConnectionId(request).Ok? && ExtractConnectionId(request).value in connector.metadata
        then {connector.metadata[ExtractConnectionId(request).value]} else {}
      ensures Valid()
      ensures ExtractConnectionId(request).Err? ==> (response == ErrorResponse(ExtractConnectionId(request).error)
        && transactions.managers == old(transactions.managers)
        && connector.registry.connections == old(connector.registry.connections)
        && connector.metadata == old(connector.metadata))
      ensures ExtractConnectionId(request).Ok? ==> (
        var id := ExtractConnectionId(request).value;
        response == SuccessResponse("{}")
        && transactions.managers == old(transactions.managers) - {id}
        && connector.registry.connections == old(connector.registry.connections) - {id}
        && connector.registry.tunnels == old(connector.registry.tunnels) - {id}
        && connector.metadata == old(connector.metadata) - {id}
        && id !in Known())
    {
      var id := ExtractConnectionId(request);
      if id.Err? {
        return ErrorResponse(id.error);
      }
      transactions.managers := transactions.managers - {id.value};
      response := connector.HandleDisconnect(request);
    }

    /** `handleExecuteQuery`: the provider's execution over the ids that
        have a query driver, with the context's cache and history. */
    method HandleExecuteQuery(request: Result<Json>, run: seq<char> -> Result<ResultSet>, timeText: seq<char>)
      returns (response: seq<char>)
      modifies queries
      ensures var x := ExecuteQuery(request, old(Known()), old(queries.cache), run, timeText);
              response == x.response
              && queries.cache == (if x.store.Some? then old(queries.cache)[x.store.value.0 := x.store.value.1] else old(queries.cache))
              && queries.history == old(queries.history) + (if x.logged then [SqlRequest(request).value.1] else [])
    {
      response := queries.HandleExecuteQuery(request, Known(), run, timeText);
    }

    /** `handleExecuteQueryPaginated`: sort columns through
        `sanitizeIdentifier`. */
    method HandleExecuteQueryPaginated(request: Result<Json>, run: seq<char> -> Result<ResultSet>, timeText: seq<char>)
      returns (response: seq<char>)
      ensures response == PaginatedResponse(request, Known(), SanitizedIdentifier, run, timeText)
    {
      response := ExecutePaginated(request, Known(), SanitizedIdentifier, run, timeText);
    }

    /** `handleGetDatabases`, with the separator written only between
        names. */
    method HandleGetDatabases(request: Result<Json>, run: seq<char> -> Result<ResultSet>) returns (response: seq<char>)
      ensures ExtractConnectionId(request).Err? ==> response == ErrorResponse(ExtractConnectionId(request).error)
      ensures ExtractConnectionId(request).Ok? && ExtractConnectionId(request).value !in Known() ==>
                response == ErrorResponse(NotFound(ExtractConnectionId(request).value))
      ensures ExtractConnectionId(request).Ok? && ExtractConnectionId(request).value in Known() ==>
                (run(DatabasesQuery).Err? ==> response == ErrorResponse(run(DatabasesQuery).error))
                && (run(DatabasesQuery).Ok? ==> response == SuccessResponse(RowArrayText(run(DatabasesQuery).value.rows, 1, FirstCell)))
    {
      response := SchemaProviders.HandleGetDatabases(request, Known(), run);
    }

    /** `handleGetTableDDL`, with the separator written only between
        columns. */
    method HandleGetTableDdl(request: Result<Json>, alnum: char -> bool, run: seq<char> -> Result<ResultSet>)
      returns (response: seq<char>)
      ensures TableRequest(request, Known(), alnum).Err? ==>
                response == ErrorResponse(TableRequest(request, Known(), alnum).error)
      ensures TableRequest(request, Known(), alnum).Ok? ==>
                var table := TableRequest(request, Known(), alnum).value.1;
                var columns, keys := run(ContextColumnQuery(table)), run(ContextPkQuery(table));
                (columns.Err? ==> response == ErrorResponse(columns.error))
                && (columns.Ok? && keys.Err? ==> response == ErrorResponse(keys.error))
                && (columns.Ok? && keys.Ok? ==> response == SuccessResponse(DdlJson(ContextDdl(table, columns.value.rows, keys.value.rows))))
    {
      response := GetContextTableDdl(request, Known(), alnum, run);
    }

    /** `handleBeginTransaction`: a manager is created lazily, over the
        id's query driver, and asked to begin. */
    method HandleBeginTransaction(request: Result<Json>, failure: Option<seq<char>>) returns (response: seq<char>)
      modifies transactions
      ensures RequestedId(request).Err? ==>
                response == ErrorResponse(RequestedId(request).error) && transactions.managers == old(transactions.managers)
      ensures RequestedId(request).Ok? && RequestedId(request).value !in Known() ==>
                response == ErrorResponse("Connection not found: " + RequestedId(request).value)
                && transactions.managers == old(transactions.managers)
      ensures RequestedId(request).Ok? && RequestedId(request).value in Known() ==> (
                var id := RequestedId(request).value;
                var before := if id in old(transactions.managers) then old(transactions.managers)[id] else Manager(Drivers()[id], []);
                transactions.managers == old(transactions.managers)[id := before.(calls := before.calls + [Begin])]
                && response == (if failure.Some? then ErrorResponse(failure.value) else SuccessResponse("{}")))
    {
      response := transactions.HandleBegin(request, Drivers(), failure);
    }

    /** `handleCommitTransaction` and `handleRollbackTransaction`: only an
        id with a manager can finish a transaction. */
    method HandleFinishTransaction(request: Result<Json>, call: TxCall, failure: Option<seq<char>>) returns (response: seq<char>)
      requires call != Begin
      modifies transactions
      ensures RequestedId(request).Ok? && RequestedId(request).value !in old(transactions.managers) ==>
                response == ErrorResponse("No transaction manager for connection: " + RequestedId(request).value)
                && transactions.managers == old(transactions.managers)
      ensures RequestedId(request).Ok? && RequestedId(request).value in old(transactions.managers) ==> (
                var id := RequestedId(request).value;
                var before := old(transactions.managers)[id];
                transactions.managers == old(transactions.managers)[id := before.(calls := before.calls + [call])]
                && response == (if failure.Some? then ErrorResponse(failure.value) else SuccessResponse("{}")))
      ensures RequestedId(request).Err? ==>
                response == ErrorResponse(RequestedId(request).error) && transactions.managers == old(transactions.managers)
    {
      response := transactions.HandleFinish(request, call, failure);
    }
  }
}
