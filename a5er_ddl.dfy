/** SQL Server DDL written from an A5:ER model (`generateA5ERDDL`,
    `generateTableDDL`) and from the ER model (`generateDDL`): column types,
    column definitions, the primary-key constraint, indexes and foreign
    keys. Both generators write the same statements; only their first
    comment line differs. */
module A5erDdl {
  import opened Strings
  import opened Lists
  import opened A5erParser

  // ---------------------------------------------------------------------------
  // Column types
  // ---------------------------------------------------------------------------

  /** The type names the mapping knows. */
  const KnownTypes: set<seq<char>> := {
    "VARCHAR", "string", "NVARCHAR", "INT", "integer", "INTEGER", "BIGINT", "bigint",
    "DECIMAL", "decimal", "NUMERIC", "DATE", "date", "DATETIME", "datetime", "TIMESTAMP",
    "BIT", "boolean", "BOOLEAN", "TEXT", "text", "CLOB", "BLOB", "binary", "BINARY"}

  /** `mapTypeToSQLServer`: the SQL Server type of an A5:ER type; character
      types hold at most 8000 characters, or `MAX`; an unknown type is
      written as it is. */
  function MapTypeToSqlServer(a5erType: seq<char>, size: int, scale: int): (r: seq<char>)
    ensures a5erType !in KnownTypes ==> r == a5erType
    ensures a5erType in KnownTypes ==> |r| >= 3 && r !in KnownTypes - {"INT", "BIGINT", "DATE", "BIT"}
  {
    if a5erType == "VARCHAR" || a5erType == "string" || a5erType == "NVARCHAR" then
      if size <= 0 || size > 8000 then "NVARCHAR(MAX)" else "NVARCHAR(" + IntToString(size) + ")"
    else if a5erType == "INT" || a5erType == "integer" || a5erType == "INTEGER" then "INT"
    else if a5erType == "BIGINT" || a5erType == "bigint" then "BIGINT"
    else if a5erType == "DECIMAL" || a5erType == "decimal" || a5erType == "NUMERIC" then
      "DECIMAL(" + IntToString(size) + "," + IntToString(scale) + ")"
    else if a5erType == "DATE" || a5erType == "date" then "DATE"
    else if a5erType == "DATETIME" || a5erType == "datetime" || a5erType == "TIMESTAMP" then "DATETIME2"
    else if a5erType == "BIT" || a5erType == "boolean" || a5erType == "BOOLEAN" then "BIT"
    else if a5erType == "TEXT" || a5erType == "text" || a5erType == "CLOB" then "NVARCHAR(MAX)"
    else if a5erType == "BLOB" || a5erType == "binary" || a5erType == "BINARY" then "VARBINARY(MAX)"
    else a5erType
  }

  /** A mapped type maps to itself: the mapping writes SQL Server types
      that it leaves as they are. */
  lemma MapTypeIdempotent(a5erType: seq<char>, size: int, scale: int, size': int, scale': int)
    ensures MapTypeToSqlServer(MapTypeToSqlServer(a5erType, size, scale), size', scale')
         == MapTypeToSqlServer(a5erType, size, scale)
  {
  }

  /** A character type with a size from 1 to 8000 keeps its size. */
  lemma MapTypeSized(a5erType: seq<char>, size: int, scale: int)
    requires a5erType == "VARCHAR" || a5erType == "string" || a5erType == "NVARCHAR"
    ensures 1 <= size <= 8000 ==> MapTypeToSqlServer(a5erType, size, scale) == "NVARCHAR(" + NatToString(size) + ")"
    ensures !(1 <= size <= 8000) ==> MapTypeToSqlServer(a5erType, size, scale) == "NVARCHAR(MAX)"
  {
  }

  // ---------------------------------------------------------------------------
  // Column definitions and the primary key
  // ---------------------------------------------------------------------------

  predicate IsKey(c: Column) { c.isPrimaryKey }

  function ColumnName(c: Column): seq<char> { c.name }

  /** The names of the primary-key columns, in column order. */
  function KeyNames(columns: seq<Column>): seq<seq<char>> {
    Map(Filter(columns, IsKey), ColumnName)
  }

  /** The names, bracket-escaped and separated by `, `. */
  function BracketList(names: seq<seq<char>>): seq<char> {
    Join(Map(names, BracketEscaped), ", ")
  }

  /** Whether the `i`-th column line ends with a comma: when another column
      follows, or when a key column has been seen so far. */
  predicate ColumnComma(columns: seq<Column>, i: nat)
    requires i < |columns|
  {
    i + 1 < |columns| || KeyNames(columns[..i + 1]) != []
  }

  /** The line of the `i`-th column. */
  function ColumnLine(columns: seq<Column>, i: nat): seq<char>
    requires i < |columns|
  {
    var c := columns[i];
    "    " + BracketEscaped(c.name) + " " + MapTypeToSqlServer(c.sqlType, c.size, c.scale)
    + (if c.nullable then "" else " NOT NULL")
    + (if c.defaultValue == [] then "" else " DEFAULT " + c.defaultValue)
    + (if ColumnComma(columns, i) then "," else "")
    + (if c.comment == [] then "" else " -- " + c.comment)
    + "\n"
  }

  /** The lines of the first `i` columns. */
  function ColumnLines(columns: seq<Column>, i: nat): seq<char>
    requires i <= |columns|
  {
    if i == 0 then [] else ColumnLines(columns, i - 1) + ColumnLine(columns, i - 1)
  }

  /** A column line ends with a comma exactly when another definition
      follows it: a further column, or the primary-key constraint, which is
      written when any column is a key. */
  lemma CommaIffFollowed(columns: seq<Column>, i: nat)
    requires i < |columns|
    ensures ColumnComma(columns, i) <==> i + 1 < |columns| || KeyNames(columns) != []
  {
    if i + 1 == |columns| {
      assert columns[..i + 1] == columns;
    }
  }

  /** The primary-key constraint line, when the table has key columns. */
  function PkConstraint(t: Table): seq<char> {
    var keys := KeyNames(t.columns);
    if keys == [] then []
    else "    CONSTRAINT " + BracketEscaped("PK_" + t.name) + " PRIMARY KEY (" + BracketList(keys) + ")\n"
  }

  /** The `CREATE TABLE` statement of a table, after its comment line. */
  function TableHead(t: Table): seq<char> {
    (if t.comment == [] then "" else "-- " + t.comment + "\n")
    + "CREATE TABLE " + BracketEscaped(t.name) + " (\n"
    + ColumnLines(t.columns, |t.columns|) + PkConstraint(t) + ");"
  }

  /** One more bracket-escaped name in a `, `-separated list. */
  lemma BracketListStep(names: seq<seq<char>>, i: nat)
    requires i < |names|
    ensures BracketList(names[..i + 1]) == BracketList(names[..i]) + (if i == 0 then "" else ", ") + BracketEscaped(names[i])
  {
    MapSnoc(names, i, BracketEscaped);
    if i == 0 {
      assert Map(names[..1], BracketEscaped) == [BracketEscaped(names[0])];
    } else {
      JoinSnoc(Map(names[..i], BracketEscaped), BracketEscaped(names[i]), ", ");
    }
  }

  /** The loop that writes a list of names, each followed by `, ` unless
      it is the last. */
  method WriteBracketList(names: seq<seq<char>>) returns (text: seq<char>)
    ensures text == BracketList(names)
  {
    text := [];
    for i := 0 to |names|
      invariant text == BracketList(names[..i]) + (if 0 < i < |names| then ", " else "")
    {
      BracketListStep(names, i);
      var piece := BracketEscaped(names[i]);
      AppendAssoc(BracketList(names[..i]), if i == 0 then "" else ", ", piece);
      text := text + piece;
      if i + 1 < |names| {
        text := text + ", ";
      }
    }
    assert names[..|names|] == names;
  }

  /** One more column seen by the key loop. */
  lemma KeyNamesStep(columns: seq<Column>, i: nat)
    requires i < |columns|
    ensures KeyNames(columns[..i + 1]) == KeyNames(columns[..i]) + (if columns[i].isPrimaryKey then [columns[i].name] else [])
  {
    var c := columns[i];
    FilterSnoc(columns, i, IsKey);
    var kept := Filter(columns[..i], IsKey);
    if c.isPrimaryKey {
      assert Filter(columns[..i + 1], IsKey) == kept + [c];
      MapAppend(kept, [c], ColumnName);
      assert Map([c], ColumnName) == [c.name];
      assert KeyNames(columns[..i + 1]) == Map(kept, ColumnName) + [c.name];
    } else {
      assert Filter(columns[..i + 1], IsKey) == kept;
    }
  }

  /** The column loop of the table generators: the column lines and the
      names of the key columns. */
  method WriteColumns(columns: seq<Column>) returns (text: seq<char>, keys: seq<seq<char>>)
    ensures text == ColumnLines(columns, |columns|) && keys == KeyNames(columns)
  {
    text := [];
    keys := [];
    for i := 0 to |columns|
      invariant text == ColumnLines(columns, i) && keys == KeyNames(columns[..i])
    {
      KeyNamesStep(columns, i);
      if columns[i].isPrimaryKey {
        keys := keys + [columns[i].name];
      }
      text := text + ColumnLine(columns, i);
    }
    assert columns[..|columns|] == columns;
  }

  method WriteTableHead(t: Table) returns (text: seq<char>)
    ensures text == TableHead(t)
  {
    var columns, keys := WriteColumns(t.columns);
    var pk := [];
    if keys != [] {
      var list := WriteBracketList(keys);
      pk := "    CONSTRAINT " + BracketEscaped("PK_" + t.name) + " PRIMARY KEY (" + list + ")\n";
    }
    var comment := if t.comment == [] then "" else "-- " + t.comment + "\n";
    text := comment + "CREATE TABLE " + BracketEscaped(t.name) + " (\n" + columns + pk + ");";
  }

  // ---------------------------------------------------------------------------
  // Indexes, tables and foreign keys
  // ---------------------------------------------------------------------------

  /** The `CREATE INDEX` statement of an index of a table. */
  function IndexStatement(t: Table, idx: Index): seq<char> {
    "CREATE " + (if idx.isUnique then "UNIQUE " else "") + "INDEX " + BracketEscaped(idx.name)
    + " ON " + BracketEscaped(t.name) + " (" + BracketList(idx.columns) + ");"
  }

  method WriteIndex(t: Table, idx: Index) returns (text: seq<char>)
    ensures text == IndexStatement(t, idx)
  {
    var list := WriteBracketList(idx.columns);
    text := "CREATE " + (if idx.isUnique then "UNIQUE " else "") + "INDEX " + BracketEscaped(idx.name)
      + " ON " + BracketEscaped(t.name) + " (" + list + ");";
  }

  /** The first `k` index statements as `generateTableDDL` writes them: each
      after a blank line. */
  function IndexesAfter(t: Table, k: nat): seq<char>
    requires k <= |t.indexes|
  {
    if k == 0 then [] else IndexesAfter(t, k - 1) + ("\n\n" + IndexStatement(t, t.indexes[k - 1]))
  }

  /** The first `k` index statements as `generateDDL` writes them: each
      followed by a blank line. */
  function IndexesBefore(t: Table, k: nat): seq<char>
    requires k <= |t.indexes|
  {
    if k == 0 then [] else IndexesBefore(t, k - 1) + (IndexStatement(t, t.indexes[k - 1]) + "\n\n")
  }

  /** `generateTableDDL` */
  function A5erTableDdl(t: Table): seq<char> {
    TableHead(t) + IndexesAfter(t, |t.indexes|)
  }

  /** A table as `generateDDL` writes it. */
  function ErTableDdl(t: Table): seq<char> {
    TableHead(t) + "\n\n" + IndexesBefore(t, |t.indexes|)
  }

  method GenerateTableDdl(t: Table) returns (ddl: seq<char>)
    ensures ddl == A5erTableDdl(t)
  {
    var head := WriteTableHead(t);
    var indexes := [];
    for k := 0 to |t.indexes|
      invariant indexes == IndexesAfter(t, k)
    {
      var statement := WriteIndex(t, t.indexes[k]);
      indexes := indexes + ("\n\n" + statement);
    }
    ddl := head + indexes;
  }

  lemma {:induction false} IndexSeparators(t: Table, k: nat)
    requires k <= |t.indexes|
    ensures IndexesAfter(t, k) + "\n\n" == "\n\n" + IndexesBefore(t, k)
  {
    if k > 0 {
      var s := IndexStatement(t, t.indexes[k - 1]);
      var after, before, blank := IndexesAfter(t, k - 1), IndexesBefore(t, k - 1), "\n\n";
      IndexSeparators(t, k - 1);
      assert after + blank == blank + before;
      calc {
        IndexesAfter(t, k) + blank;
        (after + (blank + s)) + blank;
        { AppendAssoc(after, blank, s); }
        ((after + blank) + s) + blank;
        ((blank + before) + s) + blank;
        { AppendAssoc(blank + before, s, blank);
          AppendAssoc(blank, before, s + blank); }
        blank + (before + (s + blank));
        blank + IndexesBefore(t, k);
      }
    }
  }

  /** A table as `generateTableDDL` writes it, followed by the blank line
      `generateA5ERDDL` adds, is the table as `generateDDL` writes it. */
  lemma TableDdlsAgree(t: Table)
    ensures A5erTableDdl(t) + "\n\n" == ErTableDdl(t)
  {
    IndexSeparators(t, |t.indexes|);
    AppendAssoc(TableHead(t), IndexesAfter(t, |t.indexes|), "\n\n");
    AppendAssoc(TableHead(t), "\n\n", IndexesBefore(t, |t.indexes|));
  }

  /** The foreign key of a relation, on the child table: its column
      references the parent's. */
  function ForeignKey(r: Relation): seq<char> {
    "ALTER TABLE " + BracketEscaped(r.childTable) + "\n"
    + "ADD CONSTRAINT " + BracketEscaped("FK_" + r.childTable + "_" + r.parentTable) + "\n"
    + "FOREIGN KEY (" + BracketEscaped(r.childColumn) + ")\n"
    + "REFERENCES " + BracketEscaped(r.parentTable) + " (" + BracketEscaped(r.parentColumn) + ");\n\n"
  }

  function ForeignKeys(relations: seq<Relation>, k: nat): seq<char>
    requires k <= |relations|
  {
    if k == 0 then [] else ForeignKeys(relations, k - 1) + ForeignKey(relations[k - 1])
  }

  // ---------------------------------------------------------------------------
  // Whole models
  // ---------------------------------------------------------------------------

  datatype TargetDatabase = SqlServer | PostgreSql | MySql

  /** The name `generateDDL` writes for a target. */
  function TargetName(target: TargetDatabase): seq<char> {
    match target
    case SqlServer => "SQLServer"
    case PostgreSql => "PostgreSQL"
    case MySql => "MySQL"
  }

  /** The texts `write` gives for the first `k` tables, one after the
      other. */
  function Tables(tables: seq<Table>, k: nat, write: Table -> seq<char>): seq<char>
    requires k <= |tables|
  {
    if k == 0 then [] else Tables(tables, k - 1, write) + write(tables[k - 1])
  }

  /** Two writers that agree on every table write the same text. */
  lemma {:induction false} TablesSame(tables: seq<Table>, k: nat, write: Table -> seq<char>, write': Table -> seq<char>)
    requires k <= |tables|
    requires forall j :: 0 <= j < k ==> write(tables[j]) == write'(tables[j])
    ensures Tables(tables, k, write) == Tables(tables, k, write')
  {
    if k > 0 {
      TablesSame(tables, k - 1, write, write');
    }
  }

  /** A table as `generateA5ERDDL` writes it: the table and a blank line. */
  function A5erTableBlock(t: Table): seq<char> {
    A5erTableDdl(t) + "\n\n"
  }

  /** The line naming the target database, and a blank line. */
  function TargetLine(targetName: seq<char>): seq<char> {
    "-- Target database: " + targetName + "\n\n"
  }

  /** Everything after the first line: the target, the tables with their
      indexes, then the foreign keys. */
  function DdlBody(m: Model, targetName: seq<char>): seq<char> {
    TargetLine(targetName) + Tables(m.tables, |m.tables|, ErTableDdl)
    + ForeignKeys(m.relations, |m.relations|)
  }

  /** `generateA5ERDDL` */
  function A5erDdl(m: Model, targetName: seq<char>): seq<char> {
    "-- Generated from A5:ER model: " + m.name + "\n" + TargetLine(targetName)
    + Tables(m.tables, |m.tables|, A5erTableBlock) + ForeignKeys(m.relations, |m.relations|)
  }

  /** `generateDDL` */
  function ErDdl(m: Model, target: TargetDatabase): seq<char> {
    "-- Generated from ER model: " + m.name + "\n" + DdlBody(m, TargetName(target))
  }

  /** Both generators write the same tables. */
  lemma TablesAgree(tables: seq<Table>)
    ensures Tables(tables, |tables|, A5erTableBlock) == Tables(tables, |tables|, ErTableDdl)
  {
    forall j | 0 <= j < |tables| ensures A5erTableBlock(tables[j]) == ErTableDdl(tables[j]) {
      TableDdlsAgree(tables[j]);
    }
    TablesSame(tables, |tables|, A5erTableBlock, ErTableDdl);
  }

  /** The two generators write the same DDL after their first line. */
  lemma GeneratorsAgree(m: Model, targetName: seq<char>)
    ensures A5erDdl(m, targetName) == "-- Generated from A5:ER model: " + m.name + "\n" + DdlBody(m, targetName)
  {
    TablesAgree(m.tables);
    var head := "-- Generated from A5:ER model: " + m.name + "\n";
    var target := TargetLine(targetName);
    var tables := Tables(m.tables, |m.tables|, ErTableDdl);
    var keys := ForeignKeys(m.relations, |m.relations|);
    AppendAssoc(head, target, tables);
    AppendAssoc(head, target + tables, keys);
  }

  method WriteA5erTables(tables: seq<Table>) returns (text: seq<char>)
    ensures text == Tables(tables, |tables|, A5erTableBlock)
  {
    text := [];
    for k := 0 to |tables|
      invariant text == Tables(tables, k, A5erTableBlock)
    {
      var table := GenerateTableDdl(tables[k]);
      text := text + (table + "\n\n");
    }
  }

  method GenerateA5erDdl(m: Model, targetName: seq<char>) returns (ddl: seq<char>)
    ensures ddl == A5erDdl(m, targetName)
  {
    var tables := WriteA5erTables(m.tables);
    var keys := WriteForeignKeys(m.relations);
    ddl := "-- Generated from A5:ER model: " + m.name + "\n" + TargetLine(targetName)
      + tables + keys;
  }

  /** The table loop of `generateDDL`, for one table. */
  method WriteErTable(t: Table) returns (text: seq<char>)
    ensures text == ErTableDdl(t)
  {
    var head := WriteTableHead(t);
    var indexes := [];
    for j := 0 to |t.indexes|
      invariant indexes == IndexesBefore(t, j)
    {
      var statement := WriteIndex(t, t.indexes[j]);
      indexes := indexes + (statement + "\n\n");
    }
    text := head + "\n\n" + indexes;
  }

  method WriteErTables(tables: seq<Table>) returns (text: seq<char>)
    ensures text == Tables(tables, |tables|, ErTableDdl)
  {
    text := [];
    for k := 0 to |tables|
      invariant text == Tables(tables, k, ErTableDdl)
    {
      var table := WriteErTable(tables[k]);
      text := text + table;
    }
  }

  method GenerateDdl(m: Model, target: TargetDatabase) returns (ddl: seq<char>)
    ensures ddl == ErDdl(m, target)
  {
    var targetName := "SQLServer";
    if target == PostgreSql {
      targetName := "PostgreSQL";
    } else if target == MySql {
      targetName := "MySQL";
    }
    var tables := WriteErTables(m.tables);
    var keys := WriteForeignKeys(m.relations);
    ddl := "-- Generated from ER model: " + m.name + "\n" + (TargetLine(targetName) + tables + keys);
  }

  method WriteForeignKeys(relations: seq<Relation>) returns (text: seq<char>)
    ensures text == ForeignKeys(relations, |relations|)
  {
    text := [];
    for k := 0 to |relations|
      invariant text == ForeignKeys(relations, k)
    {
      text := text + ForeignKey(relations[k]);
    }
  }
}
