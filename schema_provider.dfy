/** The catalog handlers (`SchemaProvider`): the request checks shared by
    the per-table handlers, the CSV lists the catalog queries return, the
    `CREATE TABLE` text rebuilt from `INFORMATION_SCHEMA`, the execution
    plan wrapper and the table metadata checks.

    As in the query handlers, `run` stands for executing a text on the
    connection's driver: a result, or the message of the exception it
    throws. The texts of the catalog queries are written on one line; the
    parts that carry the request's values are as in the handlers. */
module SchemaProviders {
  import opened Wrappers
  import opened Strings
  import opened Lists
  import opened Requests
  import opened ResultSets
  import opened JsonUtils
  import opened SqlValidation
  import opened ConnectionUtils
  import opened QueryProviders

  // ---------------------------------------------------------------------------
  // splitCsvToJsonArray
  // ---------------------------------------------------------------------------

  /** The fields of a comma-separated list: none for the empty text, else
      every piece between commas, empty pieces included. */
  function CsvFields(csv: seq<char>): seq<seq<char>> {
    if csv == [] then [] else SplitOn(csv, ',')
  }

  /** The JSON array of the fields, each an escaped string. */
  function CsvArray(csv: seq<char>): seq<char> {
    ArrayText(CsvFields(csv), CellText)
  }

  /** The array reads back as the fields, which join back into the list:
      one string per comma-separated field, and `[]` for the empty list. */
  lemma CsvArrayReadsBack(csv: seq<char>)
    ensures ReadRow(CsvArray(csv), 0) == Some((ResultRow(CsvFields(csv)), |CsvArray(csv)|))
    ensures Join(CsvFields(csv), ",") == csv
    ensures csv == [] ==> CsvArray(csv) == "[]"
    ensures csv != [] ==> |CsvFields(csv)| == CountChar(csv, ',') + 1
  {
    var row := ResultRow(CsvFields(csv));
    RowTextReadBack(row);
    assert CsvArray(csv) == RowText(row);
    if csv != [] {
      SplitOnJoin(csv, ',');
    }
  }

  /** `splitCsvToJsonArray`: the loop over the pieces with its `first`
      flag. */
  method SplitCsvToJsonArray(csv: seq<char>) returns (result: seq<char>)
    ensures result == CsvArray(csv)
  {
    if csv == [] {
      return "[]";
    }
    var parts := SplitOn(csv, ',');
    result := "[";
    var first := true;
    var i := 0;
    while i < |parts|
      invariant 0 <= i <= |parts|
      invariant first <==> i == 0
      invariant result == "[" + Join(Map(parts[..i], CellText), ",")
    {
      var sep := if first then "" else ",";
      var cell := CellString(parts[i]);
      JoinMapStep(parts, i, CellText);
      AppendAssoc("[", Join(Map(parts[..i], CellText), ","), sep + cell);
      result := result + (sep + cell);
      first := false;
      i := i + 1;
    }
    assert parts[..i] == parts;
    result := result + "]";
  }

  // ---------------------------------------------------------------------------
  // extractTableQueryParams
  // ---------------------------------------------------------------------------

  const MissingTable: seq<char> := "Missing required fields: connectionId or table"
  const InvalidTable: seq<char> := "Invalid table name"

  /** The connection id and table name of a per-table request. These
      handlers unwrap the parse result, so a request that does not parse
      fails with the parser's message. Otherwise the checks run in order:
      both fields present, the table name a valid identifier, the
      connection known. */
  function TableRequest(request: Result<Json>, connections: set<seq<char>>, alnum: char -> bool)
    : (r: Result<(seq<char>, seq<char>)>)
    ensures request.Err? ==> r == Err(request.error)
    ensures r.Ok? <==> (request.Ok?
      && GetString(request.value, "connectionId").Some? && GetString(request.value, "table").Some?
      && ValidIdentifier(GetString(request.value, "table").value, alnum)
      && GetString(request.value, "connectionId").value in connections)
    ensures r.Ok? ==> r.value == (GetString(request.value, "connectionId").value, GetString(request.value, "table").value)
    ensures request.Ok? && r.Err? ==>
      var id := GetString(request.value, "connectionId");
      var table := GetString(request.value, "table");
      r.error == if id.None? || table.None? then MissingTable
                 else if !ValidIdentifier(table.value, alnum) then InvalidTable
                 else NotFound(id.value)
  {
    match request
    case Err(e) => Err(e)
    case Ok(doc) =>
      match (GetString(doc, "connectionId"), GetString(doc, "table"))
      case (Some(id), Some(table)) =>
        if !ValidIdentifier(table, alnum) then Err(InvalidTable)
        else if id !in connections then Err(NotFound(id))
        else Ok((id, table))
      case _ => Err(MissingTable)
  }

  /** A string literal of a catalog query: the value with its quotes
      doubled. */
  function Literal(value: seq<char>): seq<char> {
    MapConcat(value, QuoteEscape)
  }

  // ---------------------------------------------------------------------------
  // handleGetDatabases
  // ---------------------------------------------------------------------------

  const DatabasesQuery: seq<char> := "SELECT name FROM sys.databases ORDER BY name"

  /** The first value of a row; `buildRowArray` only hands it rows that
      have one. */
  function FirstValue(row: ResultRow): seq<char> {
    if row.values == [] then [] else row.values[0]
  }

  /** A database name as a JSON string. */
  function FirstCell(row: ResultRow): seq<char> {
    CellText(FirstValue(row))
  }

  /** The array of names reads back as the first value of every row that
      has one, in order. */
  lemma DatabaseNamesReadBack(rows: seq<ResultRow>)
    ensures var names := Map(Filter(rows, Wide(1)), FirstValue);
      var t := RowArrayText(rows, 1, FirstCell);
      ReadRow(t, 0) == Some((ResultRow(names), |t|))
  {
    var kept := Filter(rows, Wide(1));
    var names := Map(kept, FirstValue);
    MapCompose(kept, FirstValue, CellText, FirstCell);
    RowTextReadBack(ResultRow(names));
    assert RowArrayText(rows, 1, FirstCell) == RowText(ResultRow(names));
  }

  /** `handleGetDatabases`: the names as an array of strings. */
  method HandleGetDatabases(request: Result<Json>, connections: set<seq<char>>, run: seq<char> -> Result<ResultSet>)
    returns (response: seq<char>)
    ensures ExtractConnectionId(request).Err? ==> response == ErrorResponse(ExtractConnectionId(request).error)
    ensures ExtractConnectionId(request).Ok? && ExtractConnectionId(request).value !in connections ==>
              response == ErrorResponse(NotFound(ExtractConnectionId(request).value))
    ensures ExtractConnectionId(request).Ok? && ExtractConnectionId(request).value in connections ==>
              (run(DatabasesQuery).Err? ==> response == ErrorResponse(run(DatabasesQuery).error))
              && (run(DatabasesQuery).Ok? ==> response == SuccessResponse(RowArrayText(run(DatabasesQuery).value.rows, 1, FirstCell)))
  {
    var id := ExtractConnectionId(request);
    if id.Err? {
      return ErrorResponse(id.error);
    }
    if id.value !in connections {
      return ErrorResponse(NotFound(id.value));
    }
    var executed := run(DatabasesQuery);
    if executed.Err? {
      return ErrorResponse(executed.error);
    }
    var names := BuildRowArray(executed.value.rows, 1, FirstCell);
    response := SuccessResponse(names);
  }

  // ---------------------------------------------------------------------------
  // handleGetTableMetadata
  // ---------------------------------------------------------------------------

  const TableNotFound: seq<char> := "Table not found"
  const BadColumnCount: seq<char> := "Unexpected column count in metadata result"

  /** The fixed text of the metadata query (a constant, so that proofs
      about the handlers do not unfold it). */
  const MetadataSelect: seq<char> :=
    "SELECT OBJECT_SCHEMA_NAME(o.object_id) AS SchemaName, o.name AS TableName, o.type_desc AS ObjectType, "
    + "ISNULL(p.rows, 0) AS RowCount, CONVERT(varchar, o.create_date, 120) AS CreatedAt, "
    + "CONVERT(varchar, o.modify_date, 120) AS ModifiedAt, ISNULL(USER_NAME(o.principal_id), 'dbo') AS Owner, "
    + "ISNULL(ep.value, '') AS Comment FROM sys.objects o "
    + "LEFT JOIN sys.partitions p ON o.object_id = p.object_id AND p.index_id IN (0, 1) "
    + "LEFT JOIN sys.extended_properties ep ON ep.major_id = o.object_id AND ep.minor_id = 0 AND ep.name = 'MS_Description' "
    + "WHERE o.object_id = OBJECT_ID('"

  function MetadataQuery(table: seq<char>): seq<char> {
    MetadataSelect + Literal(table) + "')"
  }

  const SchemaKey: seq<char> := "{\"schema\":\""

  /** The metadata object of a row of eight values: every value an escaped
      string except the row count, which is written as it is. */
  function MetadataJson(v: seq<seq<char>>): seq<char>
    requires |v| >= 8
  {
    SchemaKey + Escape(v[0]) + "\"" + MetadataFields(v)
  }

  /** The fields after the schema name. */
  function MetadataFields(v: seq<seq<char>>): seq<char>
    requires |v| >= 8
  {
    ",\"name\":\"" + Escape(v[1]) + "\",\"type\":\"" + Escape(v[2])
    + "\",\"rowCount\":" + v[3] + ",\"createdAt\":\"" + Escape(v[4]) + "\",\"modifiedAt\":\"" + Escape(v[5])
    + "\",\"owner\":\"" + Escape(v[6]) + "\",\"comment\":\"" + Escape(v[7]) + "\"}"
  }

  /** The schema name reads back from the start of the object. */
  lemma MetadataSchemaReadBack(v: seq<seq<char>>)
    requires |v| >= 8
    ensures ReadString(MetadataJson(v), |SchemaKey|) == Some((v[0], |SchemaKey| + |Escape(v[0])| + 1))
  {
    ReadEscaped(SchemaKey, v[0], MetadataFields(v));
  }

  /** Distinct messages give distinct error envelopes. */
  lemma ErrorResponsesDiffer(a: seq<char>, b: seq<char>)
    requires a != b
    ensures ErrorResponse(a) != ErrorResponse(b)
  {
    ErrorMessageReadBack(a);
    ErrorMessageReadBack(b);
  }

  /** The answer once the metadata query ran: an error when there is no row,
      another when the row is short, the object otherwise. */
  function MetadataResponse(result: ResultSet): (response: seq<char>)
    ensures response == ErrorResponse(TableNotFound) <==> result.rows == []
    ensures response == ErrorResponse(BadColumnCount) <==> result.rows != [] && |result.rows[0].values| < 8
    ensures result.rows != [] && |result.rows[0].values| >= 8 ==> response == SuccessResponse(MetadataJson(result.rows[0].values))
  {
    ErrorResponsesDiffer(TableNotFound, BadColumnCount);
    if result.rows == [] then ErrorResponse(TableNotFound)
    else if |result.rows[0].values| < 8 then ErrorResponse(BadColumnCount)
    else
      var data := MetadataJson(result.rows[0].values);
      EnvelopesDiffer(data, TableNotFound);
      EnvelopesDiffer(data, BadColumnCount);
      SuccessResponse(data)
  }

  /** `handleGetTableMetadata` */
  function TableMetadataResponse(request: Result<Json>, connections: set<seq<char>>, alnum: char -> bool,
                                 run: seq<char> -> Result<ResultSet>): (response: seq<char>)
    ensures TableRequest(request, connections, alnum).Err? ==>
              response == ErrorResponse(TableRequest(request, connections, alnum).error)
    ensures TableRequest(request, connections, alnum).Ok? ==>
              var executed := run(MetadataQuery(TableRequest(request, connections, alnum).value.1));
              (executed.Err? ==> response == ErrorResponse(executed.error))
              && (executed.Ok? ==> response == MetadataResponse(executed.value))
  {
    match TableRequest(request, connections, alnum)
    case Err(e) => ErrorResponse(e)
    case Ok((_, table)) =>
      match run(MetadataQuery(table))
      case Err(e) => ErrorResponse(e)
      case Ok(result) => MetadataResponse(result)
  }

  // ---------------------------------------------------------------------------
  // handleGetTableDDL
  // ---------------------------------------------------------------------------

  /** A catalog value that carries a size: present and not the sentinel
      that stands for none. */
  predicate Usable(value: seq<char>, sentinel: seq<char>) {
    value != [] && value != sentinel
  }

  /** The size of a column type: the maximum length when there is one,
      else the precision with the scale when there is one, else nothing. */
  function LengthSuffix(len: seq<char>, prec: seq<char>, scale: seq<char>): (r: seq<char>)
    ensures r == [] <==> !Usable(len, "-1") && !Usable(prec, "0")
    ensures r != [] ==> r[0] == '(' && r[|r| - 1] == ')'
    ensures Usable(len, "-1") ==> r[1..|r| - 1] == len
    ensures !Usable(len, "-1") && Usable(prec, "0") ==>
              r[1..|r| - 1] == prec + (if Usable(scale, "0") then "," + scale else "")
  {
    if Usable(len, "-1") then "(" + len + ")"
    else if Usable(prec, "0") then "(" + prec + (if Usable(scale, "0") then "," + scale else "") + ")"
    else ""
  }

  /** What follows a column's name: its type and size, then the null and
      default clauses. */
  function ColumnSpec(v: seq<seq<char>>): seq<char>
    requires |v| >= 7
  {
    " " + v[1] + LengthSuffix(v[2], v[3], v[4])
    + (if v[5] == "NO" then " NOT NULL" else "") + (if v[6] != [] then " DEFAULT " + v[6] else "")
  }

  /** One column of the table: its quoted name and its specification. Only
      rows with seven values are written. */
  function ColumnDef(row: ResultRow): seq<char> {
    if |row.values| < 7 then [] else "    " + QuoteIdentifier(row.values[0]) + ColumnSpec(row.values)
  }

  /** The column lines, one per row with seven values, separated by
      `,` and a line break. */
  function ColumnsText(rows: seq<ResultRow>): seq<char> {
    Join(Map(Filter(rows, Wide(7)), ColumnDef), ",\n")
  }

  /** One primary key column. */
  function PkColumn(row: ResultRow): seq<char> {
    QuoteIdentifier(FirstValue(row))
  }

  /** The primary key clause: none when the key query gave no row, else
      the constraint named after the table over the non-empty rows, in
      order. */
  function PkClause(table: seq<char>, pkRows: seq<ResultRow>): seq<char> {
    if pkRows == [] then []
    else ",\n    CONSTRAINT " + QuoteIdentifier("PK_" + table) + " PRIMARY KEY ("
         + Join(Map(Filter(pkRows, Wide(1)), PkColumn), ", ") + ")"
  }

  function TableDdl(table: seq<char>, columnRows: seq<ResultRow>, pkRows: seq<ResultRow>): seq<char> {
    "CREATE TABLE " + QuoteIdentifier(table) + " (\n" + ColumnsText(columnRows) + PkClause(table, pkRows) + "\n);"
  }

  /** The column list starts with a column, never with a separator, and is
      empty exactly when no row has seven values. */
  lemma ColumnsTextStart(rows: seq<ResultRow>)
    ensures ColumnsText(rows) == [] <==> forall k :: 0 <= k < |rows| ==> |rows[k].values| < 7
    ensures ColumnsText(rows) != [] ==> |ColumnsText(rows)| >= 4 && ColumnsText(rows)[..4] == "    "
  {
    var kept := Filter(rows, Wide(7));
    if kept == [] {
      forall k | 0 <= k < |rows| ensures |rows[k].values| < 7 {
        FilterMembers(rows, Wide(7), rows[k]);
      }
    } else {
      ColumnsStart(rows, kept);
    }
  }

  lemma ColumnsStart(rows: seq<ResultRow>, kept: seq<ResultRow>)
    requires kept == Filter(rows, Wide(7)) && kept != []
    ensures exists k :: 0 <= k < |rows| && |rows[k].values| >= 7
    ensures |ColumnsText(rows)| >= 4 && ColumnsText(rows)[..4] == "    "
  {
    FilterPasses(rows, Wide(7), 0);
    FilterMembers(rows, Wide(7), kept[0]);
    ColumnDefStart(kept[0]);
    MapHead(kept, ColumnDef);
    JoinPrefix(Map(kept, ColumnDef), ",\n");
  }

  /** A column line starts with its indentation. */
  lemma ColumnDefStart(row: ResultRow)
    requires |row.values| >= 7
    ensures |ColumnDef(row)| >= 4 && ColumnDef(row)[..4] == "    "
  {
  }

  /** The constraint name reads back as `PK_` and the table name. */
  lemma PkNameRoundTrip(table: seq<char>)
    ensures UnquoteIdentifier(QuoteIdentifier("PK_" + table)) == "PK_" + table
  {
    QuoteRoundTrip("PK_" + table);
  }

  /** The data of the answer: the DDL as an escaped string. */
  function DdlJson(ddl: seq<char>): seq<char> {
    "{\"ddl\":\"" + Escape(ddl) + "\"}"
  }

  lemma DdlReadBack(ddl: seq<char>)
    ensures ReadString(DdlJson(ddl), 8) == Some((ddl, |DdlJson(ddl)| - 1))
  {
    assert DdlJson(ddl) == "{\"ddl\":\"" + Escape(ddl) + "\"" + "}";
    ReadEscaped("{\"ddl\":\"", ddl, "}");
  }

  const ColumnSelect: seq<char> :=
    "SELECT c.COLUMN_NAME, c.DATA_TYPE, c.CHARACTER_MAXIMUM_LENGTH, c.NUMERIC_PRECISION, c.NUMERIC_SCALE, "
    + "c.IS_NULLABLE, c.COLUMN_DEFAULT FROM INFORMATION_SCHEMA.COLUMNS c WHERE c.TABLE_NAME = '"

  const ColumnOrder: seq<char> := "' ORDER BY c.ORDINAL_POSITION"

  function ColumnQuery(split: SplitIdentifier): seq<char> {
    ColumnSelect + Literal(split.name) + "' AND c.TABLE_SCHEMA = '" + Literal(split.schema) + ColumnOrder
  }

  const PkSelect: seq<char> := "SELECT COLUMN_NAME FROM INFORMATION_SCHEMA.KEY_COLUMN_USAGE WHERE TABLE_NAME = '"

  const PkConstraint: seq<char> :=
    "' AND CONSTRAINT_NAME = (SELECT CONSTRAINT_NAME FROM INFORMATION_SCHEMA.TABLE_CONSTRAINTS WHERE TABLE_NAME = '"

  const PkOrder: seq<char> := "' AND CONSTRAINT_TYPE = 'PRIMARY KEY') ORDER BY ORDINAL_POSITION"

  function PkQuery(split: SplitIdentifier): seq<char> {
    PkSelect + Literal(split.name) + "' AND TABLE_SCHEMA = '" + Literal(split.schema)
    + PkConstraint + Literal(split.name) + "' AND TABLE_SCHEMA = '" + Literal(split.schema) + PkOrder
  }

  /** One column line, appended piece by piece. */
  method ColumnLine(row: ResultRow) returns (line: seq<char>)
    requires |row.values| >= 7
    ensures line == ColumnDef(row)
  {
    var name := QuoteBracketIdentifier(row.values[0]);
    var spec := ColumnSpecText(row.values);
    line := "    " + name + spec;
  }

  /** The type, size, null and default pieces of a column line. */
  method ColumnSpecText(v: seq<seq<char>>) returns (spec: seq<char>)
    requires |v| >= 7
    ensures spec == ColumnSpec(v)
  {
    var size := SizeText(v[2], v[3], v[4]);
    spec := " " + v[1] + size;
    if v[5] == "NO" {
      spec := spec + " NOT NULL";
    } else {
      spec := spec + "";
    }
    if v[6] != [] {
      spec := spec + (" DEFAULT " + v[6]);
    } else {
      spec := spec + "";
    }
  }

  /** The size branch of the column loop. */
  method SizeText(len: seq<char>, prec: seq<char>, scale: seq<char>) returns (size: seq<char>)
    ensures size == LengthSuffix(len, prec, scale)
  {
    if len != [] && len != "-1" {
      size := "(" + len + ")";
    } else if prec != [] && prec != "0" {
      size := "(" + prec;
      if scale != [] && scale != "0" {
        size := size + ("," + scale);
      }
      size := size + ")";
    } else {
      size := "";
    }
  }

  /** The column loop: short rows skipped, a separator before every column
      but the first written. */
  method WriteColumns(rows: seq<ResultRow>) returns (text: seq<char>)
    ensures text == ColumnsText(rows)
  {
    var keep := Wide(7);
    text := [];
    var first := true;
    ghost var kept: seq<ResultRow> := [];
    for i := 0 to |rows|
      invariant kept == Filter(rows[..i], keep)
      invariant first <==> kept == []
      invariant text == Join(Map(kept, ColumnDef), ",\n")
    {
      if |rows[i].values| < 7 {
        SkipStep(rows, i, keep);
        continue;
      }
      var sep := if first then "" else ",\n";
      first := false;
      var line := ColumnLine(rows[i]);
      KeepStep(rows, i, keep, ColumnDef, ",\n", sep);
      text := text + (sep + line);
      kept := kept + [rows[i]];
    }
    assert rows[..|rows|] == rows;
  }

  /** The key column loop: empty rows skipped, `, ` between the columns
      written. */
  method WritePkColumns(rows: seq<ResultRow>) returns (text: seq<char>)
    ensures text == Join(Map(Filter(rows, Wide(1)), PkColumn), ", ")
  {
    var keep := Wide(1);
    text := [];
    var pkFirst := true;
    ghost var kept: seq<ResultRow> := [];
    for i := 0 to |rows|
      invariant kept == Filter(rows[..i], keep)
      invariant pkFirst <==> kept == []
      invariant text == Join(Map(kept, PkColumn), ", ")
    {
      if rows[i].values == [] {
        SkipStep(rows, i, keep);
        continue;
      }
      var sep := if pkFirst then "" else ", ";
      pkFirst := false;
      var column := QuoteBracketIdentifier(rows[i].values[0]);
      KeepStep(rows, i, keep, PkColumn, ", ", sep);
      text := text + (sep + column);
      kept := kept + [rows[i]];
    }
    assert rows[..|rows|] == rows;
  }

  /** The DDL text, built as the handler appends it. */
  method BuildTableDdl(table: seq<char>, columnRows: seq<ResultRow>, pkRows: seq<ResultRow>) returns (ddl: seq<char>)
    ensures ddl == TableDdl(table, columnRows, pkRows)
  {
    var sanitizedTable := QuoteBracketIdentifier(table);
    var columns := WriteColumns(columnRows);
    ddl := "CREATE TABLE " + sanitizedTable + " (\n" + columns;
    if pkRows != [] {
      var name := QuoteBracketIdentifier("PK_" + table);
      var keyColumns := WritePkColumns(pkRows);
      ddl := ddl + (",\n    CONSTRAINT " + name + " PRIMARY KEY (" + keyColumns + ")");
    } else {
      ddl := ddl + [];
    }
    ddl := ddl + "\n);";
  }

  /** `handleGetTableDDL`: the columns of the table, then its primary
      key, looked up under the schema and name the table name splits into;
      the DDL names the table as it was given. */
  method HandleGetTableDdl(request: Result<Json>, connections: set<seq<char>>, alnum: char -> bool,
                           run: seq<char> -> Result<ResultSet>) returns (response: seq<char>)
    ensures TableRequest(request, connections, alnum).Err? ==>
              response == ErrorResponse(TableRequest(request, connections, alnum).error)
    ensures TableRequest(request, connections, alnum).Ok? ==>
              var table := TableRequest(request, connections, alnum).value.1;
              var split := SplitSchemaTable(table, DefaultSchema);
              var columns, keys := run(ColumnQuery(split)), run(PkQuery(split));
              (columns.Err? ==> response == ErrorResponse(columns.error))
              && (columns.Ok? && keys.Err? ==> response == ErrorResponse(keys.error))
              && (columns.Ok? && keys.Ok? ==> response == SuccessResponse(DdlJson(TableDdl(table, columns.value.rows, keys.value.rows))))
  {
    var extracted := TableRequest(request, connections, alnum);
    if extracted.Err? {
      return ErrorResponse(extracted.error);
    }
    var table := extracted.value.1;
    var split := SplitSchemaTable(table, DefaultSchema);
    var columnResult := run(ColumnQuery(split));
    if columnResult.Err? {
      return ErrorResponse(columnResult.error);
    }
    var pkResult := run(PkQuery(split));
    if pkResult.Err? {
      return ErrorResponse(pkResult.error);
    }
    var ddl := BuildTableDdl(table, columnResult.value.rows, pkResult.value.rows);
    var escaped := EscapeString(ddl);
    response := SuccessResponse("{\"ddl\":\"" + escaped + "\"}");
  }

  // ---------------------------------------------------------------------------
  // handleGetExecutionPlan
  // ---------------------------------------------------------------------------

  const XmlOn: seq<char> := "SET STATISTICS XML ON;\n"

  function PlanOn(actual: bool): seq<char> {
    if actual then XmlOn else "SET SHOWPLAN_TEXT ON;\n"
  }

  function PlanOff(actual: bool): seq<char> {
    if actual then "\nSET STATISTICS XML OFF;" else "\nSET SHOWPLAN_TEXT OFF;"
  }

  /** The statement between the switches of the plan it asks for: the
      XML statistics of an actual run, else the estimated text plan. */
  function PlanQuery(sql: seq<char>, actual: bool): (q: seq<char>)
    ensures |q| == |PlanOn(actual)| + |sql| + |PlanOff(actual)|
    ensures q[|PlanOn(actual)|..|q| - |PlanOff(actual)|] == sql
    ensures StartsWith(q, XmlOn) <==> actual
  {
    var q := PlanOn(actual) + sql + PlanOff(actual);
    assert q[5] == PlanOn(actual)[5];
    q
  }

  /** The values of the rows, row after row. */
  function Cells(rows: seq<ResultRow>): seq<seq<char>> {
    if rows == [] then [] else Cells(rows[..|rows| - 1]) + rows[|rows| - 1].values
  }

  /** The plan text the loop accumulates: each value appended, after a
      line break unless the text is still empty. */
  function PlanText(cells: seq<seq<char>>): seq<char> {
    if cells == [] then []
    else
      var acc := PlanText(cells[..|cells| - 1]);
      (if acc == [] then acc else acc + "\n") + cells[|cells| - 1]
  }

  /** The cells from the first non-empty one on. */
  function DropLeadingEmpty(cells: seq<seq<char>>): (r: seq<seq<char>>)
    ensures r == [] || r[0] != []
  {
    if cells == [] then []
    else if cells[0] == [] then DropLeadingEmpty(cells[1..])
    else cells
  }

  lemma {:induction false} DropLeadingEmptySnoc(cells: seq<seq<char>>, v: seq<char>)
    ensures DropLeadingEmpty(cells + [v]) ==
      if DropLeadingEmpty(cells) == [] then (if v == [] then [] else [v]) else DropLeadingEmpty(cells) + [v]
    decreases |cells|
  {
    if cells == [] {
      assert cells + [v] == [v];
      assert [v][1..] == [];
    } else {
      assert (cells + [v])[1..] == cells[1..] + [v];
      DropLeadingEmptySnoc(cells[1..], v);
    }
  }

  /** The plan text is the values joined by line breaks, once the leading
      empty values are dropped: an empty value only counts after some
      text. */
  lemma {:induction false} PlanTextJoin(cells: seq<seq<char>>)
    ensures PlanText(cells) == Join(DropLeadingEmpty(cells), "\n")
    decreases |cells|
  {
    if cells != [] {
      var init, v := cells[..|cells| - 1], cells[|cells| - 1];
      assert cells == init + [v];
      PlanTextJoin(init);
      DropLeadingEmptySnoc(init, v);
      var d := DropLeadingEmpty(init);
      if d == [] {
        assert Join([v], "\n") == v;
      } else {
        assert Join(d, "\n") != [] by {
          if |d| > 1 {
            assert Join(d, "\n") == d[0] + "\n" + Join(d[1..], "\n");
          }
        }
        JoinSnoc(d, v, "\n");
      }
    }
  }

  /** When the first value is not empty, the plan is all values joined by
      line breaks, in row-major order. */
  lemma PlanTextPlainJoin(rows: seq<ResultRow>)
    requires Cells(rows) == [] || Cells(rows)[0] != []
    ensures PlanText(Cells(rows)) == Join(Cells(rows), "\n")
  {
    PlanTextJoin(Cells(rows));
  }

  /** The nested loop over rows and values. */
  method CollectPlanText(rows: seq<ResultRow>) returns (planText: seq<char>)
    ensures planText == PlanText(Cells(rows))
  {
    planText := [];
    for i := 0 to |rows|
      invariant planText == PlanText(Cells(rows[..i]))
    {
      var values := rows[i].values;
      ghost var before := Cells(rows[..i]);
      assert before + values[..0] == before;
      for j := 0 to |values|
        invariant planText == PlanText(before + values[..j])
      {
        assert before + values[..j + 1] == (before + values[..j]) + [values[j]];
        if planText != [] {
          planText := planText + "\n";
        }
        planText := planText + values[j];
      }
      assert rows[..i + 1][..i] == rows[..i];
      assert values[..|values|] == values;
    }
    assert rows[..|rows|] == rows;
  }

  function PlanJson(plan: seq<char>, actual: bool): seq<char> {
    "{\"plan\":\"" + Escape(plan) + "\"" + PlanFlag(actual)
  }

  function PlanFlag(actual: bool): seq<char> {
    ",\"actual\":" + (if actual then "true" else "false") + "}"
  }

  /** The plan text reads back from the answer, followed by the flag. */
  lemma PlanJsonReadBack(plan: seq<char>, actual: bool)
    ensures var t := PlanJson(plan, actual);
      ReadString(t, 9) == Some((plan, |t| - |PlanFlag(actual)|))
  {
    ReadEscaped("{\"plan\":\"", plan, PlanFlag(actual));
  }

  /** `handleGetExecutionPlan`. This handler does not unwrap the parse
      result: a request that does not parse is answered as one that lacks
      the fields. */
  method HandleGetExecutionPlan(request: Result<Json>, connections: set<seq<char>>, run: seq<char> -> Result<ResultSet>)
    returns (response: seq<char>)
    ensures SqlRequest(request).Err? ==> response == ErrorResponse(MissingSql)
    ensures SqlRequest(request).Ok? && SqlRequest(request).value.0 !in connections ==>
              response == ErrorResponse(NotFound(SqlRequest(request).value.0))
    ensures SqlRequest(request).Ok? && SqlRequest(request).value.0 in connections ==>
              var actual := BoolOr(Fields(request), "actual", false);
              var executed := run(PlanQuery(SqlRequest(request).value.1, actual));
              (executed.Err? ==> response == ErrorResponse(executed.error))
              && (executed.Ok? ==> response == SuccessResponse(PlanJson(PlanText(Cells(executed.value.rows)), actual)))
  {
    var fields := SqlRequest(request);
    if fields.Err? {
      return ErrorResponse(fields.error);
    }
    var (id, sql) := fields.value;
    var actual := BoolOr(Fields(request), "actual", false);
    if id !in connections {
      return ErrorResponse(NotFound(id));
    }
    var planQuery := PlanQuery(sql, actual);
    var executed := run(planQuery);
    if executed.Err? {
      return ErrorResponse(executed.error);
    }
    var planText := CollectPlanText(executed.value.rows);
    var escaped := EscapeString(planText);
    response := SuccessResponse("{\"plan\":\"" + escaped + "\"" + PlanFlag(actual));
  }
}
