/** The ODBC driver object (`SQLServerDriver`): a connected flag, the slot
    that publishes the statement being executed so that it can be
    cancelled, the last diagnostic, and the shaping of fetched data into a
    result. ODBC itself is not part of this model: each call's outcome is
    given by the caller, and the calls the driver makes are recorded in
    `calls`, so that the contracts can say which handles are freed,
    cancelled and disconnected. */
module SqlServerDrivers {
  import opened Wrappers
  import opened Strings
  import opened ResultSets
  import opened ConnectionUtils

  /** The ODBC calls whose order the contracts speak of. */
  datatype OdbcCall =
    | DriverConnect(connectionString: seq<char>)
    | Disconnect
    | AllocStatement(handle: nat)
    | FreeStatement(handle: nat)
    | ExecDirect(handle: nat, sql: seq<char>)
    | Cancel(handle: nat)

  // ---------------------------------------------------------------------------
  // Type names
  // ---------------------------------------------------------------------------

  // The ODBC type codes of sql.h and sqlext.h.
  const SqlChar := 1
  const SqlVarchar := 12
  const SqlLongVarchar := -1
  const SqlWChar := -8
  const SqlWVarchar := -9
  const SqlWLongVarchar := -10
  const SqlInteger := 4
  const SqlBigInt := -5
  const SqlSmallInt := 5
  const SqlFloat := 6
  const SqlDouble := 8
  const SqlDecimal := 3
  const SqlNumeric := 2
  const SqlTypeDate := 91
  const SqlTypeTime := 92
  const SqlTypeTimestamp := 93
  const SqlBit := -7

  const KnownTypeCodes: set<int> := {SqlChar, SqlVarchar, SqlLongVarchar, SqlWChar, SqlWVarchar, SqlWLongVarchar,
    SqlInteger, SqlBigInt, SqlSmallInt, SqlFloat, SqlDouble, SqlDecimal, SqlNumeric,
    SqlTypeDate, SqlTypeTime, SqlTypeTimestamp, SqlBit}

  const DisplayNames: set<seq<char>> := {"VARCHAR", "NVARCHAR", "INT", "BIGINT", "SMALLINT", "FLOAT", "DECIMAL",
    "DATE", "TIME", "DATETIME", "BIT"}

  /** `convertSQLTypeToDisplayName`: the narrow and wide character types
      share a name each, as do the two floating and the two exact numeric
      types; every other code is `UNKNOWN`. */
  function ConvertSqlTypeToDisplayName(dataType: int): (name: seq<char>)
    ensures name == "UNKNOWN" <==> dataType !in KnownTypeCodes
    ensures name != "UNKNOWN" ==> name in DisplayNames
  {
    if dataType in {SqlChar, SqlVarchar, SqlLongVarchar} then "VARCHAR"
    else if dataType in {SqlWChar, SqlWVarchar, SqlWLongVarchar} then "NVARCHAR"
    else if dataType == SqlInteger then "INT"
    else if dataType == SqlBigInt then "BIGINT"
    else if dataType == SqlSmallInt then "SMALLINT"
    else if dataType in {SqlFloat, SqlDouble} then "FLOAT"
    else if dataType in {SqlDecimal, SqlNumeric} then "DECIMAL"
    else if dataType == SqlTypeDate then "DATE"
    else if dataType == SqlTypeTime then "TIME"
    else if dataType == SqlTypeTimestamp then "DATETIME"
    else if dataType == SqlBit then "BIT"
    else "UNKNOWN"
  }

  /** Two codes share a display name only within one of the listed
      families. */
  lemma DisplayNameFamilies(a: int, b: int)
    requires a in KnownTypeCodes && b in KnownTypeCodes
    requires ConvertSqlTypeToDisplayName(a) == ConvertSqlTypeToDisplayName(b)
    ensures a == b || ({a, b} <= {SqlChar, SqlVarchar, SqlLongVarchar}) || ({a, b} <= {SqlWChar, SqlWVarchar, SqlWLongVarchar})
      || ({a, b} <= {SqlFloat, SqlDouble}) || ({a, b} <= {SqlDecimal, SqlNumeric})
  {
  }

  // ---------------------------------------------------------------------------
  // Shaping of fetched data
  // ---------------------------------------------------------------------------

  /** What `SQLDescribeColW` reports for one column. */
  datatype ColumnDescription = ColumnDescription(name: seq<char>, dataType: int, columnSize: int, nullable: int)

  const SqlNullable := 1
  /** The characters of the name buffer, its terminator excluded. */
  const MaxColumnName := 255

  /** The name of the 1-based column `i`: at most 255 characters of the
      reported name, or `Column<i>` when nothing is left. */
  function ColumnName(reported: seq<char>, i: nat): (name: seq<char>)
    ensures name != []
    ensures reported != [] ==> name == reported[..if |reported| < MaxColumnName then |reported| else MaxColumnName]
    ensures reported == [] ==> name == "Column" + NatToString(i)
  {
    var clamped := reported[..if |reported| < MaxColumnName then |reported| else MaxColumnName];
    if clamped == [] then "Column" + NatToString(i) else clamped
  }

  /** The column `i` of a result. The size is the column size cast to a
      32-bit `int`. */
  function ColumnOf(d: ColumnDescription, i: nat): (c: ColumnInfo)
    ensures c.name == ColumnName(d.name, i) && c.sqlType == ConvertSqlTypeToDisplayName(d.dataType)
    ensures c.nullable <==> d.nullable == SqlNullable
    ensures MinInt32 <= c.size <= MaxInt32 && (MinInt32 <= d.columnSize <= MaxInt32 ==> c.size == d.columnSize)
    ensures !c.isPrimaryKey
  {
    ColumnInfo(ColumnName(d.name, i), ConvertSqlTypeToDisplayName(d.dataType), ToInt32(d.columnSize),
               d.nullable == SqlNullable, false, [])
  }

  /** The columns, in order, or the first description that failed. */
  function Columns(ds: seq<Result<ColumnDescription>>): (r: Result<seq<ColumnInfo>>)
    ensures r.Ok? ==> |r.value| == |ds|
    decreases |ds|
  {
    if ds == [] then Ok([])
    else
      match Columns(ds[..|ds| - 1])
      case Err(e) => Err(e)
      case Ok(cs) =>
        match ds[|ds| - 1]
        case Err(e) => Err("Failed to describe column: " + e)
        case Ok(d) => Ok(cs + [ColumnOf(d, |ds|)])
  }

  /** The columns are there iff every description succeeded. */
  lemma ColumnsOk(ds: seq<Result<ColumnDescription>>)
    ensures Columns(ds).Ok? <==> forall k :: 0 <= k < |ds| ==> ds[k].Ok?
  {
    if Columns(ds).Ok? {
      ColumnsOkAll(ds);
    } else {
      var k := ColumnsFailure(ds);
    }
  }

  lemma {:induction false} ColumnsOkAll(ds: seq<Result<ColumnDescription>>)
    requires Columns(ds).Ok?
    ensures forall k :: 0 <= k < |ds| ==> ds[k].Ok?
    decreases |ds|
  {
    if ds != [] {
      var init := ds[..|ds| - 1];
      assert Columns(init).Ok?;
      ColumnsOkAll(init);
      assert forall k :: 0 <= k < |init| ==> init[k] == ds[k];
    }
  }

  /** A failed description, when the columns are not there. */
  lemma {:induction false} ColumnsFailure(ds: seq<Result<ColumnDescription>>) returns (k: nat)
    requires Columns(ds).Err?
    ensures k < |ds| && ds[k].Err?
    decreases |ds|
  {
    var init := ds[..|ds| - 1];
    if Columns(init).Err? {
      k := ColumnsFailure(init);
      assert init[k] == ds[k];
    } else {
      k := |ds| - 1;
    }
  }

  /** Column `k` of the result is made from description `k`, numbered from
      1. */
  lemma {:induction false} ColumnsAt(ds: seq<Result<ColumnDescription>>, k: nat)
    requires Columns(ds).Ok? && k < |ds|
    ensures ds[k].Ok? && Columns(ds).value[k] == ColumnOf(ds[k].value, k + 1)
    decreases |ds|
  {
    ColumnsOk(ds);
    var init := ds[..|ds| - 1];
    if k < |ds| - 1 {
      ColumnsAt(init, k);
      assert init[k] == ds[k];
    }
  }

  /** The diagnostic of the first description that failed, none when every
      description succeeded. */
  function FailedDescription(ds: seq<Result<ColumnDescription>>): (r: Option<seq<char>>)
    ensures r.None? <==> forall k :: 0 <= k < |ds| ==> ds[k].Ok?
    decreases |ds|
  {
    if ds == [] then None
    else
      match FailedDescription(ds[..|ds| - 1])
      case Some(e) => Some(e)
      case None => if ds[|ds| - 1].Err? then Some(ds[|ds| - 1].error) else None
  }

  /** The column loop fails exactly when some description does, and its
      message is the prefix followed by the first failing description's
      diagnostic. */
  lemma {:induction false} ColumnsFailedDescription(ds: seq<Result<ColumnDescription>>)
    ensures Columns(ds).Err? <==> FailedDescription(ds).Some?
    ensures Columns(ds).Err? ==> Columns(ds).error == "Failed to describe column: " + FailedDescription(ds).value
    decreases |ds|
  {
    if ds != [] {
      ColumnsFailedDescription(ds[..|ds| - 1]);
    }
  }

  /** What `SQLGetData` gives for one cell. */
  datatype CellFetch = NullData | Data(text: seq<char>) | FetchError

  /** The text before the first NUL character. */
  function UpToNul(t: seq<char>): (r: seq<char>)
    ensures r <= t && '\0' !in r
    ensures '\0' !in t ==> r == t
  {
    match IndexOf(t, '\0')
    case Some(k) => t[..k]
    case None => t
  }

  /** A NULL or a failed fetch becomes the empty text. */
  function CellValue(f: CellFetch): (v: seq<char>)
    ensures '\0' !in v
    ensures f.NullData? || f.FetchError? ==> v == []
  {
    match f
    case Data(t) => UpToNul(t)
    case _ => []
  }

  /** The cell of column `j` of a fetched row, a failure when the row holds
      nothing for it. */
  function CellAt(cells: seq<CellFetch>, j: nat): CellFetch {
    if j < |cells| then cells[j] else FetchError
  }

  /** One fetched row: exactly one value per column. */
  method FetchRow(cells: seq<CellFetch>, numCols: nat) returns (row: ResultRow)
    ensures |row.values| == numCols
    ensures forall j :: 0 <= j < numCols ==> row.values[j] == CellValue(CellAt(cells, j))
  {
    var values: seq<seq<char>> := [];
    var i := 0;
    while i < numCols
      invariant i <= numCols && |values| == i
      invariant forall j :: 0 <= j < i ==> values[j] == CellValue(CellAt(cells, j))
    {
      var fetched := CellAt(cells, i);
      if fetched.NullData? {
        values := values + [[]];
      } else if fetched.Data? {
        values := values + [UpToNul(fetched.text)];
      } else {
        values := values + [[]];
      }
      i := i + 1;
    }
    row := ResultRow(values);
  }

  /** The fetch loop: one row per fetched row, in order. */
  method FetchRows(fetched: seq<seq<CellFetch>>, numCols: nat) returns (rows: seq<ResultRow>)
    ensures |rows| == |fetched|
    ensures forall k :: 0 <= k < |rows| ==> |rows[k].values| == numCols
    ensures forall k, j :: 0 <= k < |rows| && 0 <= j < numCols ==> rows[k].values[j] == CellValue(CellAt(fetched[k], j))
  {
    rows := [];
    var k := 0;
    while k < |fetched|
      invariant k <= |fetched| && |rows| == k
      invariant forall m :: 0 <= m < k ==> |rows[m].values| == numCols
      invariant forall m, j :: 0 <= m < k && 0 <= j < numCols ==> rows[m].values[j] == CellValue(CellAt(fetched[m], j))
    {
      var row := FetchRow(fetched[k], numCols);
      rows := rows + [row];
      k := k + 1;
    }
  }

  /** What ODBC does during one `execute`: whether a statement handle is
      allocated, whether the statement runs, whether the column count can
      be read, the column descriptions, the cells of the fetched rows, and
      the row count if it is available. Errors carry the diagnostic. */
  datatype ExecOutcome = ExecOutcome(
    allocError: Option<seq<char>>,
    execError: Option<seq<char>>,
    numColsError: Option<seq<char>>,
    columns: seq<Result<ColumnDescription>>,
    fetched: seq<seq<CellFetch>>,
    rowCount: Option<int>)

  /** The result of a statement that ran. */
  function Shaped(o: ExecOutcome): (r: Result<ResultSet>)
    ensures r.Ok? <==> o.numColsError.None? && Columns(o.columns).Ok?
    ensures r.Ok? ==> r.value.columns == Columns(o.columns).value && |r.value.rows| == |o.fetched|
    ensures r.Ok? ==> forall k :: 0 <= k < |r.value.rows| ==> |r.value.rows[k].values| == |o.columns|
    ensures r.Ok? ==> r.value.affectedRows == (if o.rowCount.Some? then o.rowCount.value else 0)
  {
    if o.numColsError.Some? then Err("Failed to get column count: " + o.numColsError.value)
    else
      match Columns(o.columns)
      case Err(e) => Err(e)
      case Ok(cs) =>
        Ok(ResultSet(cs, seq(|o.fetched|, k requires 0 <= k < |o.fetched| =>
                               ResultRow(seq(|o.columns|, j requires 0 <= j < |o.columns| => CellValue(CellAt(o.fetched[k], j))))),
                     if o.rowCount.Some? then o.rowCount.value else 0))
  }

  /** The diagnostic `execute` keeps as the last error once the statement
      has run: that of the column count, else that of the first failing
      column description; none when the result is shaped. */
  function StoredDiagnostic(o: ExecOutcome): Option<seq<char>> {
    if o.numColsError.Some? then o.numColsError else FailedDescription(o.columns)
  }

  /** A statement that ran fails exactly when a diagnostic is kept, and the
      error it reports is the kept diagnostic behind the message of the step
      that failed. */
  lemma ShapedDiagnostic(o: ExecOutcome)
    ensures Shaped(o).Err? <==> StoredDiagnostic(o).Some?
    ensures Shaped(o).Err? ==>
      Shaped(o).error == (if o.numColsError.Some? then "Failed to get column count: " else "Failed to describe column: ")
                         + StoredDiagnostic(o).value
  {
    ColumnsFailedDescription(o.columns);
  }

  // ---------------------------------------------------------------------------
  // The driver
  // ---------------------------------------------------------------------------

  class SqlServerDriver {
    var connected: bool
    /** The published statement handle, if any. */
    var stmt: Option<nat>
    var lastError: seq<char>
    /** The ODBC calls made so far. */
    var calls: seq<OdbcCall>
    /** The next statement handle ODBC hands out. */
    var nextHandle: nat

    constructor()
      ensures !connected && stmt.None? && lastError == [] && calls == [] && nextHandle == 0
    {
      connected := false;
      stmt := None;
      lastError := [];
      calls := [];
      nextHandle := 0;
    }

    predicate IsConnected()
      reads this
    {
      connected
    }

    /** `disconnect`: the statement slot is emptied (its handle freed), and
        the connection is closed only if it was open, so a second call does
        nothing. */
    method Disconnect()
      modifies this
      ensures !connected && stmt.None? && lastError == old(lastError) && nextHandle == old(nextHandle)
      ensures calls == old(calls) + (if old(stmt).Some? then [FreeStatement(old(stmt).value)] else [])
                                  + (if old(connected) then [OdbcCall.Disconnect] else [])
    {
      var h := stmt;
      stmt := None;
      if h.Some? {
        calls := calls + [FreeStatement(h.value)];
      }
      var was := connected;
      connected := false;
      if was {
        calls := calls + [OdbcCall.Disconnect];
      }
    }

    /** `connect`: an open connection is closed first; `failure` is the
        diagnostic of a failed `SQLDriverConnectW`, which is kept and leaves
        the driver disconnected. */
    method Connect(connectionString: seq<char>, failure: Option<seq<char>>) returns (ok: bool)
      modifies this
      ensures ok <==> failure.None?
      ensures connected == ok && stmt == (if old(connected) then None else old(stmt))
      ensures lastError == if ok then old(lastError) else failure.value
      ensures old(connected) ==> calls == old(calls) + (if old(stmt).Some? then [FreeStatement(old(stmt).value)] else [])
                                                     + [OdbcCall.Disconnect, DriverConnect(connectionString)]
      ensures !old(connected) ==> calls == old(calls) + [DriverConnect(connectionString)]
      ensures nextHandle == old(nextHandle)
    {
      if connected {
        Disconnect();
      }
      calls := calls + [DriverConnect(connectionString)];
      if failure.Some? {
        lastError := failure.value;
        return false;
      }
      connected := true;
      return true;
    }

    /** `execute`. Disconnected: an error before anything changes.
        Otherwise the previous statement handle is freed and the slot
        emptied; a new handle is allocated and published before the
        statement runs, or, if allocation fails, the slot stays empty. */
    method Execute(sql: seq<char>, odbc: ExecOutcome) returns (result: Result<ResultSet>)
      modifies this
      ensures !old(connected) ==> (result == Err("Not connected to database") && calls == old(calls) && stmt == old(stmt)
        && lastError == old(lastError) && nextHandle == old(nextHandle))
      ensures connected == old(connected)
      ensures old(connected) && odbc.allocError.Some? ==>
        result == Err(odbc.allocError.value) && lastError == odbc.allocError.value && stmt.None? && nextHandle == old(nextHandle)
        && calls == old(calls) + (if old(stmt).Some? then [FreeStatement(old(stmt).value)] else [])
      ensures old(connected) && odbc.allocError.None? ==>
        stmt == Some(old(nextHandle)) && nextHandle == old(nextHandle) + 1
        && calls == old(calls) + (if old(stmt).Some? then [FreeStatement(old(stmt).value)] else [])
                               + [AllocStatement(old(nextHandle)), ExecDirect(old(nextHandle), sql)]
      ensures old(connected) && odbc.allocError.None? && odbc.execError.Some? ==>
        result == Err(odbc.execError.value) && lastError == odbc.execError.value
      ensures old(connected) && odbc.allocError.None? && odbc.execError.None? ==> result == Shaped(odbc)
      ensures old(connected) && odbc.allocError.None? && odbc.execError.None? && odbc.numColsError.Some? ==>
        lastError == odbc.numColsError.value
      ensures old(connected) && odbc.allocError.None? && odbc.execError.None? && odbc.numColsError.None?
              && FailedDescription(odbc.columns).Some? ==>
        lastError == FailedDescription(odbc.columns).value
      ensures old(connected) && odbc.allocError.None? && odbc.execError.None? && Shaped(odbc).Ok? ==>
        lastError == old(lastError)
    {
      if !connected {
        return Err("Not connected to database");
      }
      var old_ := stmt;
      stmt := None;
      if old_.Some? {
        calls := calls + [FreeStatement(old_.value)];
      }
      if odbc.allocError.Some? {
        stmt := None;
        lastError := odbc.allocError.value;
        return Err(lastError);
      }
      var h := nextHandle;
      nextHandle := nextHandle + 1;
      calls := calls + [AllocStatement(h)];
      stmt := Some(h);
      calls := calls + [ExecDirect(h, sql)];
      if odbc.execError.Some? {
        lastError := odbc.execError.value;
        return Err(lastError);
      }
      var diagnostic;
      result, diagnostic := ShapeResult(odbc);
      if diagnostic.Some? {
        lastError := diagnostic.value;
      }
      ShapedDiagnostic(odbc);
    }

    /** `cancel`: the published statement, if any, is cancelled. */
    method Cancel()
      modifies this
      ensures connected == old(connected) && stmt == old(stmt) && lastError == old(lastError) && nextHandle == old(nextHandle)
      ensures calls == old(calls) + (if old(stmt).Some? then [OdbcCall.Cancel(old(stmt).value)] else [])
    {
      if stmt.Some? {
        calls := calls + [OdbcCall.Cancel(stmt.value)];
      }
    }
  }

  /** The part of `execute` after the statement ran: the column count, the
      column loop, the fetch loop and the row count. */
  method ShapeResult(odbc: ExecOutcome) returns (result: Result<ResultSet>, diagnostic: Option<seq<char>>)
    ensures result == Shaped(odbc)
    ensures diagnostic == StoredDiagnostic(odbc)
  {
    if odbc.numColsError.Some? {
      return Err("Failed to get column count: " + odbc.numColsError.value), odbc.numColsError;
    }
    var columns;
    columns, diagnostic := DescribeColumns(odbc.columns);
    if columns.Err? {
      return Err(columns.error), diagnostic;
    }
    var rows := FetchRows(odbc.fetched, |odbc.columns|);
    var affected := if odbc.rowCount.Some? then odbc.rowCount.value else 0;
    result := Ok(ResultSet(columns.value, rows, affected));
    var expected := Shaped(odbc).value.rows;
    forall k | 0 <= k < |rows| ensures rows[k] == expected[k] {
      assert rows[k].values == expected[k].values;
    }
    assert Shaped(odbc).Ok?;
    assert rows == expected;
    assert columns.value == Shaped(odbc).value.columns;
    assert affected == Shaped(odbc).value.affectedRows;
  }

  /** The column loop of `execute`; a failing description's diagnostic is
      what the driver keeps as its last error. */
  method DescribeColumns(ds: seq<Result<ColumnDescription>>) returns (r: Result<seq<ColumnInfo>>, failed: Option<seq<char>>)
    ensures r == Columns(ds)
    ensures failed == FailedDescription(ds)
  {
    var columns: seq<ColumnInfo> := [];
    var i := 0;
    failed := None;
    while i < |ds|
      invariant i <= |ds| && Columns(ds[..i]) == Ok(columns)
    {
      assert ds[..i + 1][..i] == ds[..i];
      if ds[i].Err? {
        ColumnsStop(ds, i, columns);
        ColumnsFailedDescription(ds);
        var prefix := "Failed to describe column: ";
        assert FailedDescription(ds).value == (prefix + FailedDescription(ds).value)[|prefix|..];
        assert ds[i].error == (prefix + ds[i].error)[|prefix|..];
        return Err(prefix + ds[i].error), Some(ds[i].error);
      }
      columns := columns + [ColumnOf(ds[i].value, i + 1)];
      i := i + 1;
    }
    assert ds[..i] == ds;
    ColumnsFailedDescription(ds);
    return Ok(columns), None;
  }

  /** The first description that fails decides the error. */
  lemma {:induction false} ColumnsFirstError(ds: seq<Result<ColumnDescription>>, k: nat)
    requires k < |ds| && ds[k].Err? && forall j :: 0 <= j < k ==> ds[j].Ok?
    ensures Columns(ds) == Err("Failed to describe column: " + ds[k].error)
    decreases |ds|
  {
    var init := ds[..|ds| - 1];
    if k < |ds| - 1 {
      ColumnsFirstError(init, k);
    } else {
      assert Columns(init).Ok? by {
        forall j | 0 <= j < |init| ensures init[j].Ok? {
          assert init[j] == ds[j];
        }
        ColumnsOk(init);
      }
    }
  }

  lemma ColumnsStop(ds: seq<Result<ColumnDescription>>, i: nat, columns: seq<ColumnInfo>)
    requires i < |ds| && Columns(ds[..i]) == Ok(columns) && ds[i].Err?
    ensures Columns(ds) == Err("Failed to describe column: " + ds[i].error)
  {
    ColumnsOk(ds[..i]);
    forall j | 0 <= j < i ensures ds[j].Ok? {
      assert ds[..i][j] == ds[j];
    }
    ColumnsFirstError(ds, i);
  }
}
