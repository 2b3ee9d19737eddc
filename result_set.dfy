/** The values a query produces: column descriptions, rows of text cells
    and the affected-row count. The execution time, a floating-point
    number, is not part of this model. */
module ResultSets {
  /** One column of a result. */
  datatype ColumnInfo = ColumnInfo(
    name: seq<char>,
    sqlType: seq<char>,
    size: int,
    nullable: bool,
    isPrimaryKey: bool,
    comment: seq<char>)

  /** A column with the defaults of the C++ struct. */
  function DefaultColumn(name: seq<char>, sqlType: seq<char>): ColumnInfo {
    ColumnInfo(name, sqlType, 0, true, false, [])
  }

  /** One row: every cell is text. */
  datatype ResultRow = ResultRow(values: seq<seq<char>>)

  /** A whole result; `affectedRows` is a 64-bit count, 0 by default. */
  datatype ResultSet = ResultSet(columns: seq<ColumnInfo>, rows: seq<ResultRow>, affectedRows: int)

  const EmptyResult := ResultSet([], [], 0)

  /** The result reported for a `USE` statement, which returns no rows of
      its own: one column `Message` and one row naming the new database. */
  function UseResult(database: seq<char>): (r: ResultSet)
    ensures |r.columns| == 1 && r.columns[0].name == "Message" && !r.columns[0].nullable
    ensures r.rows == [ResultRow(["Database changed to " + database])] && r.affectedRows == 0
  {
    ResultSet([ColumnInfo("Message", "VARCHAR", 255, false, false, [])],
              [ResultRow(["Database changed to " + database])], 0)
  }
}
