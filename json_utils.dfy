/** The hand-written JSON text builders of the backend (`JsonUtils`):
    string escaping, the success and error envelopes, the column and row
    arrays of a query result, and the generic array builders.

    Text is a sequence of code units; a unit below 0x20 is a control
    character. The escapes are those of section 7 of RFC 8259, and
    `ReadString` below is the reading that section defines, used as the
    independent partner of the escaping. */
module JsonUtils {
  import opened Wrappers
  import opened Strings
  import opened Lists
  import opened ResultSets

  const Backspace: char := '\U{8}'
  const FormFeed: char := '\U{C}'

  predicate IsControl(c: char) { (c as int) < 0x20 }

  /** The letter of the two-character escape of `"`, `\` and the five
      named controls. */
  function NamedEscape(c: char): Option<char> {
    if c == '"' then Some('"')
    else if c == '\\' then Some('\\')
    else if c == Backspace then Some('b')
    else if c == FormFeed then Some('f')
    else if c == '\n' then Some('n')
    else if c == '\r' then Some('r')
    else if c == '\t' then Some('t')
    else None
  }

  /** The test of the fast path: characters the escape table changes. */
  predicate NeedsEscaping(c: char) {
    NamedEscape(c).Some? || IsControl(c)
  }

  /** A lower-case hexadecimal digit (`{:x}`). */
  function HexDigit(d: nat): char
    requires d < 16
  {
    if d < 10 then ('0' as int + d) as char else ('a' as int + d - 10) as char
  }

  // ---------------------------------------------------------------------------
  // escapeString
  // ---------------------------------------------------------------------------

  /** `\u00xx` with the code in four lower-case hexadecimal digits. */
  function UnicodeEscape(c: char): seq<char>
    requires IsControl(c)
  {
    "\\u00" + [HexDigit(c as int / 16), HexDigit(c as int % 16)]
  }

  /** The `switch` of `escapeString`: two-character escapes for `"`, `\`
      and the five named controls, `\u00xx` for the other controls, the
      character itself otherwise. */
  function EscapeChar(c: char): seq<char> {
    match NamedEscape(c)
    case Some(n) => ['\\', n]
    case None => if IsControl(c) then UnicodeEscape(c) else [c]
  }

  /** `escapeString` */
  function Escape(s: seq<char>): seq<char> {
    MapConcat(s, EscapeChar)
  }

  method EscapeString(str: seq<char>) returns (result: seq<char>)
    ensures result == Escape(str)
  {
    if forall k :: 0 <= k < |str| ==> !NeedsEscaping(str[k]) {
      EscapeIdentity(str);
      return str;
    }
    result := [];
    var i := 0;
    while i < |str|
      invariant 0 <= i <= |str|
      invariant result == MapConcat(str[..i], EscapeChar)
    {
      MapConcatStep(str, i, EscapeChar);
      result := result + EscapeChar(str[i]);
      i := i + 1;
    }
    assert str[..i] == str;
  }

  /** Text with nothing to escape is returned as it is. */
  lemma EscapeIdentity(s: seq<char>)
    requires forall k :: 0 <= k < |s| ==> !NeedsEscaping(s[k])
    ensures Escape(s) == s
  {
    forall k | 0 <= k < |s| ensures EscapeChar(s[k]) == [s[k]] {
      assert !NeedsEscaping(s[k]);
    }
    MapConcatIdentity(s, EscapeChar);
  }

  /** Every character that needs escaping is changed by it. */
  lemma EscapeCharChanges(c: char)
    ensures EscapeChar(c) == [c] <==> !NeedsEscaping(c)
    ensures NeedsEscaping(c) ==> EscapeChar(c)[0] == '\\'
  {
  }

  /** No control character survives escaping. */
  lemma {:induction false} EscapeNoControl(s: seq<char>)
    ensures forall k :: 0 <= k < |Escape(s)| ==> !IsControl(Escape(s)[k])
    decreases |s|
  {
    if s != [] {
      var t := s[..|s| - 1];
      EscapeNoControl(t);
      assert Escape(s) == Escape(t) + EscapeChar(s[|s| - 1]);
    }
  }

  // ---------------------------------------------------------------------------
  // Reading a JSON string (section 7 of RFC 8259)
  // ---------------------------------------------------------------------------

  function HexValue(c: char): Option<nat> {
    if '0' <= c <= '9' then Some(c as int - '0' as int)
    else if 'a' <= c <= 'f' then Some(c as int - 'a' as int + 10)
    else if 'A' <= c <= 'F' then Some(c as int - 'A' as int + 10)
    else None
  }

  /** The value of the four hexadecimal digits at `i`. */
  function Hex4(t: seq<char>, i: nat): Option<nat>
    requires i + 4 <= |t|
  {
    var a, b, c, d := HexValue(t[i]), HexValue(t[i + 1]), HexValue(t[i + 2]), HexValue(t[i + 3]);
    if a.Some? && b.Some? && c.Some? && d.Some? then
      Some(((a.value * 16 + b.value) * 16 + c.value) * 16 + d.value)
    else None
  }

  /** The character a two-character escape `\c` stands for. */
  function ShortEscape(c: char): Option<char> {
    if c == '"' then Some('"')
    else if c == '\\' then Some('\\')
    else if c == '/' then Some('/')
    else if c == 'b' then Some(Backspace)
    else if c == 'f' then Some(FormFeed)
    else if c == 'n' then Some('\n')
    else if c == 'r' then Some('\r')
    else if c == 't' then Some('\t')
    else None
  }

  predicate IsScalar(v: nat) {
    v < 0xD800 || 0xE000 <= v < 0x11_0000
  }

  function Cons(c: char, r: Option<(seq<char>, nat)>): Option<(seq<char>, nat)> {
    match r
    case None => None
    case Some((s, j)) => Some(([c] + s, j))
  }

  /** One character of a string body at `i`: a character as it is, a
      two-character escape or a `\uXXXX` escape; `None` for a bare control
      character or a malformed escape. Escaped surrogates are refused:
      surrogate pairs are not combined. */
  function ReadUnit(t: seq<char>, i: nat): (r: Option<(char, nat)>)
    requires i < |t|
    ensures r.Some? ==> i < r.value.1 <= |t|
  {
    if IsControl(t[i]) then None
    else if t[i] != '\\' then Some((t[i], i + 1))
    else if i + 1 == |t| then None
    else if t[i + 1] == 'u' then
      if i + 6 <= |t| && Hex4(t, i + 2).Some? && IsScalar(Hex4(t, i + 2).value) then
        Some((Hex4(t, i + 2).value as char, i + 6))
      else None
    else
      match ShortEscape(t[i + 1])
      case None => None
      case Some(c) => Some((c, i + 2))
  }

  /** Reading the body of a JSON string that starts at `i`, up to and
      including its closing quote: the characters it stands for and the
      position after the quote, or `None` if it is not well formed (a bare
      control character, an unknown escape, no closing quote). */
  function ReadString(t: seq<char>, i: nat): (r: Option<(seq<char>, nat)>)
    ensures r.Some? ==> i < r.value.1 <= |t|
    decreases |t| - i
  {
    if i >= |t| then None
    else if t[i] == '"' then Some(([], i + 1))
    else
      match ReadUnit(t, i)
      case None => None
      case Some((c, j)) => Cons(c, ReadString(t, j))
  }

  lemma ReadStringStep(t: seq<char>, i: nat, c: char, j: nat)
    requires i < |t| && t[i] != '"' && ReadUnit(t, i) == Some((c, j))
    ensures ReadString(t, i) == Cons(c, ReadString(t, j))
  {
  }

  lemma HexRoundTrip(d: nat)
    requires d < 16
    ensures HexValue(HexDigit(d)) == Some(d)
  {
  }

  lemma NamedRoundTrip(c: char)
    requires NamedEscape(c).Some?
    ensures NamedEscape(c).value != 'u' && ShortEscape(NamedEscape(c).value) == Some(c)
  {
  }

  /** The escape of `x` is read back as `x`. */
  lemma ReadEscapedChar(t: seq<char>, i: nat, x: char)
    requires At(t, i, EscapeChar(x))
    ensures i < |t| && t[i] != '"' && ReadUnit(t, i) == Some((x, i + |EscapeChar(x)|))
  {
    var e := EscapeChar(x);
    AtChar(t, i, e, 0);
    if NamedEscape(x).Some? {
      AtChar(t, i, e, 1);
      NamedRoundTrip(x);
    } else if IsControl(x) {
      var v := x as int;
      HexRoundTrip(v / 16);
      HexRoundTrip(v % 16);
      AtChar(t, i, e, 1);
      AtChar(t, i, e, 2);
      AtChar(t, i, e, 3);
      AtChar(t, i, e, 4);
      AtChar(t, i, e, 5);
      assert Hex4(t, i + 2) == Some(v);
    }
  }

  /** Escaped text followed by a quote is read back as the original text,
      ending exactly at that quote: the escaped text holds no bare quote
      and no control character. */
  lemma {:induction false} ReadEscapedAt(t: seq<char>, i: nat, s: seq<char>)
    requires At(t, i, Escape(s) + "\"")
    ensures ReadString(t, i) == Some((s, i + |Escape(s)| + 1))
    decreases |s|
  {
    if s == [] {
      AtChar(t, i, Escape(s) + "\"", 0);
    } else {
      var n := EscapeHead(t, i, s);
      ReadEscapedChar(t, i, s[0]);
      ReadStringStep(t, i, s[0], i + n);
      ReadEscapedAt(t, i + n, s[1..]);
      assert s == [s[0]] + s[1..];
    }
  }

  /** Escaped text starts with the escape of its first character. */
  lemma EscapeHead(t: seq<char>, i: nat, s: seq<char>) returns (n: nat)
    requires s != [] && At(t, i, Escape(s) + "\"")
    ensures n == |EscapeChar(s[0])| && |Escape(s)| == n + |Escape(s[1..])|
    ensures At(t, i, EscapeChar(s[0])) && At(t, i + n, Escape(s[1..]) + "\"")
  {
    var x, rest := s[0], s[1..];
    var e := EscapeChar(x);
    n := |e|;
    MapConcatCons(x, rest, EscapeChar);
    assert s == [x] + rest;
    assert Escape(s) + "\"" == e + (Escape(rest) + "\"");
    AtSplit(t, i, e, Escape(rest) + "\"");
  }

  /** The round trip of `escapeString` through a JSON reader, wherever the
      escaped text stands. */
  lemma ReadEscaped(p: seq<char>, s: seq<char>, q: seq<char>)
    ensures ReadString(p + Escape(s) + "\"" + q, |p|) == Some((s, |p| + |Escape(s)| + 1))
  {
    var w := Escape(s) + "\"";
    var t := p + Escape(s) + "\"" + q;
    assert t == p + w + q;
    assert t[|p|..|p| + |w|] == w;
    ReadEscapedAt(t, |p|, s);
  }

  /** The round trip on its own. */
  lemma EscapeRoundTrip(s: seq<char>)
    ensures ReadString(Escape(s) + "\"", 0) == Some((s, |Escape(s)| + 1))
  {
    ReadEscaped([], s, []);
    assert [] + Escape(s) + "\"" + [] == Escape(s) + "\"";
  }

  // ---------------------------------------------------------------------------
  // Envelopes
  // ---------------------------------------------------------------------------

  const SuccessPrefix: seq<char> := "{\"success\":true,\"data\":"
  const ErrorPrefix: seq<char> := "{\"success\":false,\"error\":\""

  /** `successResponse`: the data is embedded as it is. */
  function SuccessResponse(data: seq<char>): seq<char> {
    SuccessPrefix + data + "}"
  }

  /** `errorResponse`: the message is embedded as an escaped string. */
  function ErrorResponse(message: seq<char>): seq<char> {
    ErrorPrefix + Escape(message) + "\"}"
  }

  /** The error message reads back from its envelope, and the envelope
      closes right after the string. */
  lemma ErrorMessageReadBack(message: seq<char>)
    ensures var r := ErrorResponse(message);
      ReadString(r, |ErrorPrefix|) == Some((message, |r| - 1)) && r[|r| - 1] == '}'
  {
    assert ErrorResponse(message) == ErrorPrefix + Escape(message) + "\"" + "}";
    ReadEscaped(ErrorPrefix, message, "}");
  }

  /** The data of a success envelope is exactly the text between the prefix
      and the closing brace. */
  lemma SuccessDataVerbatim(data: seq<char>)
    ensures var r := SuccessResponse(data);
      r[..|SuccessPrefix|] == SuccessPrefix && r[|SuccessPrefix|..|r| - 1] == data && r[|r| - 1] == '}'
  {
  }

  /** A success envelope never looks like an error envelope. */
  lemma EnvelopesDiffer(data: seq<char>, message: seq<char>)
    ensures SuccessResponse(data) != ErrorResponse(message)
  {
    assert SuccessResponse(data)[11] == 't';
    assert ErrorResponse(message)[11] == 'f';
  }

  // ---------------------------------------------------------------------------
  // Columns and rows
  // ---------------------------------------------------------------------------

  const NameKey: seq<char> := "{\"name\":\""
  const TypeKey: seq<char> := "\",\"type\":\""

  /** One column: the name escaped, the type copied as it is. */
  function ColumnItem(c: ColumnInfo): seq<char> {
    NameKey + Escape(c.name) + TypeKey + c.sqlType + "\"}"
  }

  /** `appendColumns`: the `"columns"` field. */
  function ColumnsField(columns: seq<ColumnInfo>): seq<char> {
    "\"columns\":[" + Join(Map(columns, ColumnItem), ",") + "]"
  }

  /** A JSON string of one cell. */
  function CellText(v: seq<char>): seq<char> {
    "\"" + Escape(v) + "\""
  }

  /** One row: its cells as an array of strings. */
  function RowText(row: ResultRow): seq<char> {
    ArrayText(row.values, CellText)
  }

  /** `appendResultSetFields`; `timeText` is the rendering of the execution
      time, which is floating point. */
  function ResultSetFields(result: ResultSet, timeText: seq<char>): seq<char> {
    ColumnsField(result.columns) + RowsField(Join(Map(result.rows, RowText), ","))
    + TailFields(IntToString(result.affectedRows), timeText)
  }

  /** The `"rows"` field around the joined rows. */
  function RowsField(rowTexts: seq<char>): seq<char> {
    ",\"rows\":[" + rowTexts + "]"
  }

  /** The affected-row count and the execution time. */
  function TailFields(count: seq<char>, timeText: seq<char>): seq<char> {
    ",\"affectedRows\":" + count + ",\"executionTimeMs\":" + timeText
  }

  /** `serializeResultSet` */
  function SerializeResult(result: ResultSet, cached: bool, timeText: seq<char>): seq<char> {
    "{" + ResultSetFields(result, timeText) + ",\"cached\":" + (if cached then "true" else "false") + "}"
  }

  /** The name of a column reads back as a JSON string, after which the
      type follows as it is. */
  lemma ColumnItemReadBack(c: ColumnInfo)
    ensures var item := ColumnItem(c);
      var j := |NameKey| + |Escape(c.name)| + 1;
      ReadString(item, |NameKey|) == Some((c.name, j)) &&
      item[j..] == ",\"type\":\"" + c.sqlType + "\"}"
  {
    var rest := ",\"type\":\"" + c.sqlType + "\"}";
    assert ColumnItem(c) == NameKey + Escape(c.name) + "\"" + rest;
    ReadEscaped(NameKey, c.name, rest);
  }

  /** The result reports whether it was cached in its last field. */
  lemma SerializeEnding(result: ResultSet, cached: bool, timeText: seq<char>)
    ensures EndsWith(SerializeResult(result, cached, timeText),
                     if cached then ",\"cached\":true}" else ",\"cached\":false}")
    ensures SerializeResult(result, cached, timeText)[0] == '{'
  {
  }

  /** One more item of a mapping loop that separates items by commas. */
  lemma JoinMapStep<T>(xs: seq<T>, i: nat, f: T -> seq<char>)
    requires i < |xs|
    ensures Join(Map(xs[..i + 1], f), ",") == Join(Map(xs[..i], f), ",") + ((if i > 0 then "," else "") + f(xs[i]))
  {
    MapSnoc(xs, i, f);
    JoinAppendOne(Map(xs[..i], f), f(xs[i]), ",");
  }

  /** One more piece joined after a separator, unless it is the first. */
  lemma JoinAppendOne(parts: seq<seq<char>>, x: seq<char>, sep: seq<char>)
    ensures Join(parts + [x], sep) == Join(parts, sep) + ((if parts == [] then "" else sep) + x)
  {
    if parts == [] {
      assert parts + [x] == [x];
    } else {
      JoinSnoc(parts, x, sep);
    }
  }

  /** The text of one column, built piece by piece. */
  method ColumnText(c: ColumnInfo) returns (item: seq<char>)
    ensures item == ColumnItem(c)
  {
    var name := EscapeString(c.name);
    item := NameKey + name + TypeKey + c.sqlType + "\"}";
  }

  method AppendColumns(json: seq<char>, columns: seq<ColumnInfo>) returns (out: seq<char>)
    ensures out == json + ColumnsField(columns)
  {
    var items := "";
    var i := 0;
    while i < |columns|
      invariant 0 <= i <= |columns|
      invariant items == Join(Map(columns[..i], ColumnItem), ",")
    {
      var sep := if i > 0 then "," else "";
      var item := ColumnText(columns[i]);
      JoinMapStep(columns, i, ColumnItem);
      items := items + (sep + item);
      i := i + 1;
    }
    assert columns[..i] == columns;
    out := json + ("\"columns\":[" + items + "]");
  }

  /** One cell, quoted and escaped. */
  method CellString(v: seq<char>) returns (cell: seq<char>)
    ensures cell == CellText(v)
  {
    var escaped := EscapeString(v);
    cell := "\"" + escaped + "\"";
  }

  /** The cells of one row, each quoted and escaped, between brackets. */
  method AppendRow(json: seq<char>, row: ResultRow) returns (out: seq<char>)
    ensures out == json + RowText(row)
  {
    var values := row.values;
    var cells := "";
    var i := 0;
    while i < |values|
      invariant 0 <= i <= |values|
      invariant cells == Join(Map(values[..i], CellText), ",")
    {
      var sep := if i > 0 then "," else "";
      var cell := CellString(values[i]);
      JoinMapStep(values, i, CellText);
      cells := cells + (sep + cell);
      i := i + 1;
    }
    assert values[..i] == values;
    out := json + ("[" + cells + "]");
  }

  method AppendResultSetFields(json: seq<char>, result: ResultSet, timeText: seq<char>) returns (out: seq<char>)
    ensures out == json + ResultSetFields(result, timeText)
  {
    var columns := AppendColumns([], result.columns);
    assert columns == ColumnsField(result.columns);
    var rows := result.rows;
    var rowTexts := "";
    var i := 0;
    while i < |rows|
      invariant 0 <= i <= |rows|
      invariant rowTexts == Join(Map(rows[..i], RowText), ",")
    {
      var sep := if i > 0 then "," else "";
      var row := AppendRow(sep, rows[i]);
      JoinMapStep(rows, i, RowText);
      rowTexts := rowTexts + row;
      i := i + 1;
    }
    assert rows[..i] == rows;
    var count := IntToString(result.affectedRows);
    out := json + (columns + RowsField(rowTexts) + TailFields(count, timeText));
  }

  method SerializeResultSet(result: ResultSet, cached: bool, timeText: seq<char>) returns (json: seq<char>)
    ensures json == SerializeResult(result, cached, timeText)
  {
    var fields := AppendResultSetFields("{", result, timeText);
    json := fields + ",\"cached\":" + (if cached then "true" else "false") + "}";
  }

  // ---------------------------------------------------------------------------
  // Reading arrays back
  // ---------------------------------------------------------------------------

  /** A JSON string at `i`, quotes included. */
  function ReadQuoted(t: seq<char>, i: nat): Option<(seq<char>, nat)> {
    if i < |t| && t[i] == '"' then ReadString(t, i + 1) else None
  }

  /** The items of an array from `i`, each read by `read`, separated by
      commas, up to and including the closing `]`. */
  function ReadItems<T>(t: seq<char>, i: nat, read: (seq<char>, nat) -> Option<(T, nat)>): Option<(seq<T>, nat)>
    decreases |t| - i
  {
    match read(t, i)
    case None => None
    case Some((x, j)) =>
      if j <= i || j >= |t| then None
      else if t[j] == ']' then Some(([x], j + 1))
      else if t[j] == ',' then
        match ReadItems(t, j + 1, read)
        case None => None
        case Some((rest, k)) => Some(([x] + rest, k))
      else None
  }

  /** An array at `i` whose items `read` reads. */
  function ReadArray<T>(t: seq<char>, i: nat, read: (seq<char>, nat) -> Option<(T, nat)>): Option<(seq<T>, nat)> {
    if i + 1 < |t| && t[i] == '[' && t[i + 1] == ']' then Some(([], i + 2))
    else if i < |t| && t[i] == '[' then ReadItems(t, i + 1, read)
    else None
  }

  /** An array of strings read as a row. */
  function ReadRow(t: seq<char>, i: nat): Option<(ResultRow, nat)> {
    match ReadArray(t, i, ReadQuoted)
    case None => None
    case Some((values, j)) => Some((ResultRow(values), j))
  }

  /** `read` reads back whatever `write` writes, wherever it stands; what
      `write` writes is never empty and never starts with `]`. */
  ghost predicate ReadsBack<T(!new)>(write: T -> seq<char>, read: (seq<char>, nat) -> Option<(T, nat)>) {
    (forall x {:trigger write(x)} :: |write(x)| > 0 && write(x)[0] != ']') &&
    (forall u: seq<char>, j: nat, x {:trigger At(u, j, write(x))} ::
      At(u, j, write(x)) ==> read(u, j) == Some((x, j + |write(x)|)))
  }

  /** A cell reads back as its value. */
  lemma ReadCellAt(t: seq<char>, i: nat, v: seq<char>)
    requires At(t, i, CellText(v))
    ensures ReadQuoted(t, i) == Some((v, i + |CellText(v)|))
  {
    var w := Escape(v) + "\"";
    assert CellText(v) == "\"" + w;
    AtSplit(t, i, "\"", w);
    AtChar(t, i, "\"", 0);
    ReadEscapedAt(t, i + 1, v);
  }

  lemma CellTextReadsBack()
    ensures ReadsBack(CellText, ReadQuoted)
  {
    forall u: seq<char>, j: nat, v: seq<char> | At(u, j, CellText(v))
      ensures ReadQuoted(u, j) == Some((v, j + |CellText(v)|))
    {
      ReadCellAt(u, j, v);
    }
  }

  lemma ItemsEnd<T>(t: seq<char>, i: nat, read: (seq<char>, nat) -> Option<(T, nat)>, x: T, j: nat)
    requires read(t, i) == Some((x, j)) && i < j < |t| && t[j] == ']'
    ensures ReadItems(t, i, read) == Some(([x], j + 1))
  {
  }

  lemma ItemsNext<T>(t: seq<char>, i: nat, read: (seq<char>, nat) -> Option<(T, nat)>, x: T, j: nat, rest: seq<T>, k: nat)
    requires read(t, i) == Some((x, j)) && i < j < |t| && t[j] == ','
    requires ReadItems(t, j + 1, read) == Some((rest, k))
    ensures ReadItems(t, i, read) == Some(([x] + rest, k))
  {
  }

  /** Items joined by commas and closed by `]` read back as the items. */
  lemma {:induction false} ReadItemsBack<T(!new)>(t: seq<char>, i: nat, xs: seq<T>, write: T -> seq<char>,
                                            read: (seq<char>, nat) -> Option<(T, nat)>)
    requires xs != [] && ReadsBack(write, read)
    requires At(t, i, Join(Map(xs, write), ",") + "]")
    ensures ReadItems(t, i, read) == Some((xs, i + |Join(Map(xs, write), ",")| + 1))
    decreases |xs|
  {
    var parts := Map(xs, write);
    MapHead(xs, write);
    if |xs| == 1 {
      ItemsSingle(t, i, parts);
      LastItemBack(t, i, xs, write, read);
    } else {
      ItemsHead(t, i, parts);
      var j := i + |parts[0]|;
      ReadItemsBack(t, j + 1, xs[1..], write, read);
      NextItemBack(t, i, xs, write, read, j + 1 + |Join(parts[1..], ",")| + 1);
    }
  }

  lemma LastItemBack<T(!new)>(t: seq<char>, i: nat, xs: seq<T>, write: T -> seq<char>,
                             read: (seq<char>, nat) -> Option<(T, nat)>)
    requires |xs| == 1 && ReadsBack(write, read)
    requires At(t, i, write(xs[0])) && i + |write(xs[0])| < |t| && t[i + |write(xs[0])|] == ']'
    ensures ReadItems(t, i, read) == Some((xs, i + |write(xs[0])| + 1))
  {
    ReadAt(t, i, xs[0], write, read);
    ItemsEnd(t, i, read, xs[0], i + |write(xs[0])|);
    assert xs == [xs[0]];
  }

  lemma NextItemBack<T(!new)>(t: seq<char>, i: nat, xs: seq<T>, write: T -> seq<char>,
                             read: (seq<char>, nat) -> Option<(T, nat)>, k: nat)
    requires |xs| > 1 && ReadsBack(write, read)
    requires At(t, i, write(xs[0])) && i + |write(xs[0])| < |t| && t[i + |write(xs[0])|] == ','
    requires ReadItems(t, i + |write(xs[0])| + 1, read) == Some((xs[1..], k))
    ensures ReadItems(t, i, read) == Some((xs, k))
  {
    ReadAt(t, i, xs[0], write, read);
    ItemsNext(t, i, read, xs[0], i + |write(xs[0])|, xs[1..], k);
    assert xs == [xs[0]] + xs[1..];
  }

  lemma ReadAt<T(!new)>(t: seq<char>, i: nat, x: T, write: T -> seq<char>, read: (seq<char>, nat) -> Option<(T, nat)>)
    requires ReadsBack(write, read) && At(t, i, write(x))
    ensures read(t, i) == Some((x, i + |write(x)|)) && |write(x)| > 0
  {
  }

  lemma ItemsSingle(t: seq<char>, i: nat, parts: seq<seq<char>>)
    requires |parts| == 1 && At(t, i, Join(parts, ",") + "]")
    ensures At(t, i, parts[0]) && i + |parts[0]| < |t| && t[i + |parts[0]|] == ']'
    ensures |Join(parts, ",")| == |parts[0]|
  {
    assert Join(parts, ",") + "]" == parts[0] + ([']'] + []);
    AtSeparated(t, i, parts[0], ']', []);
  }

  /** The first of several items, its comma and the rest. */
  lemma ItemsHead(t: seq<char>, i: nat, parts: seq<seq<char>>)
    requires |parts| > 1 && At(t, i, Join(parts, ",") + "]")
    ensures At(t, i, parts[0]) && i + |parts[0]| < |t| && t[i + |parts[0]|] == ','
    ensures |Join(parts, ",")| == |parts[0]| + 1 + |Join(parts[1..], ",")|
    ensures At(t, i + |parts[0]| + 1, Join(parts[1..], ",") + "]")
  {
    assert Join(parts, ",") + "]" == parts[0] + ([','] + (Join(parts[1..], ",") + "]"));
    AtSeparated(t, i, parts[0], ',', Join(parts[1..], ",") + "]");
  }

  /** A non-empty list of items starts with the first item's text. */
  lemma JoinStart<T>(xs: seq<T>, write: T -> seq<char>)
    requires xs != [] && |write(xs[0])| > 0
    ensures var body := Join(Map(xs, write), ",");
      |body| > 0 && body[0] == write(xs[0])[0]
  {
    var body := Join(Map(xs, write), ",");
    if |xs| == 1 {
      assert Map(xs, write) == [write(xs[0])];
    } else {
      assert body == write(xs[0]) + "," + Join(Map(xs[1..], write), ",");
    }
  }

  /** An array written item by item reads back as the items, wherever it
      stands. */
  lemma ReadArrayBack<T(!new)>(t: seq<char>, i: nat, xs: seq<T>, write: T -> seq<char>,
                         read: (seq<char>, nat) -> Option<(T, nat)>)
    requires ReadsBack(write, read)
    requires At(t, i, ArrayText(xs, write))
    ensures ReadArray(t, i, read) == Some((xs, i + |ArrayText(xs, write)|))
  {
    var body := Join(Map(xs, write), ",");
    var w := body + "]";
    assert ArrayText(xs, write) == "[" + w;
    AtSplit(t, i, "[", w);
    AtChar(t, i, "[", 0);
    if xs == [] {
      AtChar(t, i + 1, w, 0);
    } else {
      JoinStart(xs, write);
      AtChar(t, i + 1, w, 0);
      ReadItemsBack(t, i + 1, xs, write, read);
    }
  }

  lemma RowTextReadsBack()
    ensures ReadsBack(RowText, ReadRow)
  {
    CellTextReadsBack();
    forall row: ResultRow ensures |RowText(row)| > 0 && RowText(row)[0] != ']' {
      assert RowText(row)[0] == '[';
    }
    forall u: seq<char>, j: nat, row: ResultRow | At(u, j, RowText(row))
      ensures ReadRow(u, j) == Some((row, j + |RowText(row)|))
    {
      ReadArrayBack(u, j, row.values, CellText, ReadQuoted);
    }
  }

  /** Every row of a result reads back as exactly its cell values. */
  lemma RowReadBack(p: seq<char>, row: ResultRow, q: seq<char>)
    ensures ReadRow(p + RowText(row) + q, |p|) == Some((row, |p| + |RowText(row)|))
  {
    RowTextReadsBack();
    var t := p + RowText(row) + q;
    assert t[|p|..|p| + |RowText(row)|] == RowText(row);
    ReadAt(t, |p|, row, RowText, ReadRow);
  }

  /** A row's text on its own reads back as the row. */
  lemma RowTextReadBack(row: ResultRow)
    ensures ReadRow(RowText(row), 0) == Some((row, |RowText(row)|))
  {
    RowReadBack([], row, []);
    assert [] + RowText(row) + [] == RowText(row);
  }

  /** The rows of a result, as `appendResultSetFields` writes them, read
      back as exactly the rows, in order. */
  lemma RowsReadBack(p: seq<char>, rows: seq<ResultRow>, q: seq<char>)
    ensures var t := p + ArrayText(rows, RowText) + q;
      ReadArray(t, |p|, ReadRow) == Some((rows, |t| - |q|))
  {
    RowTextReadsBack();
    var t := p + ArrayText(rows, RowText) + q;
    assert t[|p|..|p| + |ArrayText(rows, RowText)|] == ArrayText(rows, RowText);
    ReadArrayBack(t, |p|, rows, RowText, ReadRow);
  }

  // ---------------------------------------------------------------------------
  // buildArray and buildRowArray
  // ---------------------------------------------------------------------------

  /** `buildArray`: the formatter's text for every item, in order, between
      brackets and separated by commas. */
  function ArrayText<T>(items: seq<T>, fmt: T -> seq<char>): seq<char> {
    "[" + Join(Map(items, fmt), ",") + "]"
  }

  method BuildArray<T>(items: seq<T>, fmt: T -> seq<char>) returns (json: seq<char>)
    ensures json == ArrayText(items, fmt)
  {
    json := "[";
    var first := true;
    var i := 0;
    while i < |items|
      invariant 0 <= i <= |items|
      invariant first <==> i == 0
      invariant json == "[" + Join(Map(items[..i], fmt), ",")
    {
      var sep := if first then "" else ",";
      first := false;
      JoinMapStep(items, i, fmt);
      json := json + (sep + fmt(items[i]));
      i := i + 1;
    }
    assert items[..i] == items;
    json := json + "]";
  }

  predicate HasColumns(minColumns: nat, row: ResultRow) {
    |row.values| >= minColumns
  }

  /** The test of `buildRowArray` as a value. */
  function Wide(minColumns: nat): ResultRow -> bool {
    row => HasColumns(minColumns, row)
  }

  /** `buildRowArray`: as `buildArray` over the rows with at least
      `minColumns` values. */
  function RowArrayText(rows: seq<ResultRow>, minColumns: nat, fmt: ResultRow -> seq<char>): seq<char> {
    ArrayText(Filter(rows, Wide(minColumns)), fmt)
  }

  method BuildRowArray(rows: seq<ResultRow>, minColumns: nat, fmt: ResultRow -> seq<char>) returns (json: seq<char>)
    ensures json == RowArrayText(rows, minColumns, fmt)
  {
    var keep := Wide(minColumns);
    json := "[";
    var first := true;
    ghost var kept: seq<ResultRow> := [];
    var i := 0;
    while i < |rows|
      invariant 0 <= i <= |rows|
      invariant kept == Filter(rows[..i], keep)
      invariant first <==> kept == []
      invariant json == "[" + Join(Map(kept, fmt), ",")
    {
      if |rows[i].values| >= minColumns {
        var sep := if first then "" else ",";
        KeepStep(rows, i, keep, fmt, ",", sep);
        AppendAssoc("[", Join(Map(kept, fmt), ","), sep + fmt(rows[i]));
        first := false;
        json := json + (sep + fmt(rows[i]));
        kept := kept + [rows[i]];
      } else {
        SkipStep(rows, i, keep);
      }
      i := i + 1;
    }
    assert rows[..i] == rows;
    json := json + "]";
  }

  /** A kept item of a filtering loop that writes `comma` between items: the
      separator is empty only before the first kept item. */
  lemma KeepStep<T>(xs: seq<T>, i: nat, keep: T -> bool, f: T -> seq<char>, comma: seq<char>, sep: seq<char>)
    requires i < |xs| && keep(xs[i])
    requires sep == if Filter(xs[..i], keep) == [] then "" else comma
    ensures Filter(xs[..i + 1], keep) == Filter(xs[..i], keep) + [xs[i]]
    ensures Join(Map(Filter(xs[..i + 1], keep), f), comma) == Join(Map(Filter(xs[..i], keep), f), comma) + (sep + f(xs[i]))
  {
    var kept := Filter(xs[..i], keep);
    FilterSnoc(xs, i, keep);
    MapSnoc(kept + [xs[i]], |kept|, f);
    assert (kept + [xs[i]])[..|kept|] == kept;
    assert (kept + [xs[i]])[..|kept| + 1] == kept + [xs[i]];
    JoinAppendOne(Map(kept, f), f(xs[i]), comma);
  }

  /** A skipped item of a filtering loop. */
  lemma SkipStep<T>(xs: seq<T>, i: nat, keep: T -> bool)
    requires i < |xs| && !keep(xs[i])
    ensures Filter(xs[..i + 1], keep) == Filter(xs[..i], keep)
  {
    FilterSnoc(xs, i, keep);
    assert Filter(xs[..i], keep) + [] == Filter(xs[..i], keep);
  }

  /** With formatters whose text is non-empty and holds no comma, the commas
      of the array separate exactly the formatted items: one piece per item,
      none empty. */
  lemma ArrayPieces<T>(items: seq<T>, fmt: T -> seq<char>)
    requires items != []
    requires forall x :: ',' !in fmt(x)
    ensures var t := ArrayText(items, fmt);
      SplitOn(t[1..|t| - 1], ',') == Map(items, fmt)
  {
    var t := ArrayText(items, fmt);
    var texts := Map(items, fmt);
    assert t[1..|t| - 1] == Join(texts, ",");
    forall k | 0 <= k < |texts| ensures ',' !in texts[k] {
      MapAt(items, fmt, k);
    }
    JoinSplitOn(texts, ',');
  }

  /** A row is emitted iff it has enough values, and the emitted rows keep
      their order. */
  lemma RowArrayKeeps(rows: seq<ResultRow>, minColumns: nat, row: ResultRow)
    ensures row in Filter(rows, Wide(minColumns)) <==> row in rows && |row.values| >= minColumns
  {
    FilterMembers(rows, Wide(minColumns), row);
  }
}
