/** The A5:ER ER-diagram reader (`A5ERParser`), text format: the records it
    builds, colour conversion, the quoted-CSV field reader, cardinality
    resolution, section splitting and the reading of entity, relation and
    shape sections. The XML format (pugixml) is not part of this model; a
    reader for it is passed in where the source calls it. Coordinates and
    sizes held as `double` are left out of the records. */
module A5erParser {
  import opened Wrappers
  import opened Strings
  import opened Lists
  import opened ConnectionUtils
  import opened A5erUtils
  import opened SqlValidation

  // ---------------------------------------------------------------------------
  // Records (shared by the A5:ER model and the ER model it converts to)
  // ---------------------------------------------------------------------------

  datatype Column = Column(
    name: seq<char>, logicalName: seq<char>, sqlType: seq<char>, size: int, scale: int,
    nullable: bool, isPrimaryKey: bool, defaultValue: seq<char>, comment: seq<char>, color: seq<char>)

  datatype Index = Index(name: seq<char>, columns: seq<seq<char>>, isUnique: bool)

  datatype Table = Table(
    name: seq<char>, logicalName: seq<char>, comment: seq<char>, page: seq<char>,
    columns: seq<Column>, indexes: seq<Index>, color: seq<char>, bkColor: seq<char>)

  datatype Relation = Relation(
    name: seq<char>, parentTable: seq<char>, childTable: seq<char>,
    parentColumn: seq<char>, childColumn: seq<char>, cardinality: seq<char>)

  datatype Shape = Shape(
    shapeType: seq<char>, text: seq<char>, brushColor: seq<char>, fontColor: seq<char>,
    brushAlpha: int, fontSize: int, page: seq<char>)

  datatype Model = Model(
    name: seq<char>, databaseType: seq<char>, tables: seq<Table>, relations: seq<Relation>, shapes: seq<Shape>)

  // ---------------------------------------------------------------------------
  // Bracket escaping
  // ---------------------------------------------------------------------------

  /** `bracketEscape`: the name between brackets with every `]` doubled. */
  function BracketEscaped(name: seq<char>): seq<char> {
    "[" + MapConcat(name, CloseBracketEscape) + "]"
  }

  method BracketEscape(name: seq<char>) returns (result: seq<char>)
    ensures result == BracketEscaped(name)
  {
    var body := [];
    for i := 0 to |name|
      invariant body == MapConcat(name[..i], CloseBracketEscape)
    {
      MapConcatStep(name, i, CloseBracketEscape);
      body := body + CloseBracketEscape(name[i]);
    }
    assert name[..|name|] == name;
    result := "[" + body + "]";
  }

  /** Reading the brackets back gives the name; a non-empty name is quoted
      as an identifier part is, and the empty name gives `[]`. */
  lemma BracketEscapeRoundTrip(name: seq<char>)
    ensures UnquotePart(BracketEscaped(name)) == name
    ensures name != [] ==> BracketEscaped(name) == QuotePart(name)
    ensures name == [] ==> BracketEscaped(name) == "[]"
  {
    if name == [] {
      assert BracketEscaped(name) == "[]";
      assert UndoubledRange("[]", ']', 1, 1) == [];
    } else {
      QuotePartRoundTrip(name);
    }
  }

  // ---------------------------------------------------------------------------
  // Colours
  // ---------------------------------------------------------------------------

  predicate IsHexDigit(c: char) {
    '0' <= c <= '9' || 'a' <= c <= 'f' || 'A' <= c <= 'F'
  }

  predicate AllHex(s: seq<char>) {
    forall k :: 0 <= k < |s| ==> IsHexDigit(s[k])
  }

  /** A CSS colour as the conversion writes it: `#` and six upper-case
      hexadecimal digits. */
  predicate IsCssColor(r: seq<char>) {
    |r| == 7 && r[0] == '#' && forall k :: 1 <= k < 7 ==> IsHexDigit(r[k]) && !('a' <= r[k] <= 'z')
  }

  /** The six `BBGGRR` digits of an A5:ER colour: `$BBGGRR`, or `$AABBGGRR`
      whose alpha is not `FF` (the alpha digits themselves are not
      checked). */
  function ColorDigits(raw: seq<char>): (r: Option<seq<char>>)
    ensures r.Some? ==> |r.value| == 6 && AllHex(r.value)
  {
    if raw == [] || raw[0] != '$' then None
    else
      var hex := raw[1..];
      if |hex| == 8 && LowerChar(hex[0]) == 'f' && LowerChar(hex[1]) == 'f' then None
      else
        var bgr := if |hex| == 8 then hex[2..] else hex;
        if |bgr| == 6 && AllHex(bgr) then Some(bgr) else None
  }

  /** `convertA5erColor`: `$BBGGRR` becomes `#RRGGBB` in upper case; any
      other text becomes the empty string. */
  function ConvertA5erColor(raw: seq<char>): (r: seq<char>)
    ensures r == [] || IsCssColor(r)
    ensures r != [] <==> ColorDigits(raw).Some?
  {
    match ColorDigits(raw)
    case None => []
    case Some(bgr) =>
      var rgb := bgr[4..6] + bgr[2..4] + bgr[0..2];
      assert forall k :: 0 <= k < 6 ==> IsHexDigit(rgb[k]) by {
        forall k | 0 <= k < 6 ensures IsHexDigit(rgb[k]) {
          if k < 2 { assert rgb[k] == bgr[4 + k]; }
          else if k < 4 { assert rgb[k] == bgr[k]; }
          else { assert rgb[k] == bgr[k - 4]; }
        }
      }
      "#" + Upper(rgb)
  }

  /** The A5:ER form of a CSS colour: the channels in `BBGGRR` order. */
  function A5erColor(css: seq<char>): seq<char>
    requires |css| == 7
  {
    "$" + css[5..7] + css[3..5] + css[1..3]
  }

  /** Every colour the conversion produces comes back from its A5:ER
      form. */
  lemma ColorRoundTrip(css: seq<char>)
    requires IsCssColor(css)
    ensures ConvertA5erColor(A5erColor(css)) == css
  {
    var raw := A5erColor(css);
    var bgr := raw[1..];
    assert bgr == css[5..7] + css[3..5] + css[1..3];
    assert AllHex(bgr) by {
      forall k | 0 <= k < 6 ensures IsHexDigit(bgr[k]) {
        if k < 2 { assert bgr[k] == css[5 + k]; }
        else if k < 4 { assert bgr[k] == css[k + 1]; }
        else { assert bgr[k] == css[k - 3]; }
      }
    }
    assert ColorDigits(raw) == Some(bgr);
    var rgb := bgr[4..6] + bgr[2..4] + bgr[0..2];
    forall k | 0 <= k < 6 ensures Upper(rgb)[k] == css[k + 1] {
      if k < 2 { assert rgb[k] == bgr[4 + k] == css[k + 1]; }
      else if k < 4 { assert rgb[k] == bgr[k] == css[k + 1]; }
      else { assert rgb[k] == bgr[k - 4] == css[k + 1]; }
    }
    assert "#" + Upper(rgb) == css;
  }

  /** An alpha other than `FF` is ignored; the alpha `FF` (in either case)
      means the default colour, which converts to nothing. */
  lemma ColorAlpha(alpha: seq<char>, bgr: seq<char>)
    requires |alpha| == 2 && |bgr| == 6
    ensures LowerChar(alpha[0]) == 'f' && LowerChar(alpha[1]) == 'f' ==> ConvertA5erColor("$" + alpha + bgr) == []
    ensures !(LowerChar(alpha[0]) == 'f' && LowerChar(alpha[1]) == 'f') ==>
      ConvertA5erColor("$" + alpha + bgr) == ConvertA5erColor("$" + bgr)
  {
    assert ("$" + alpha + bgr)[1..] == alpha + bgr;
    assert (alpha + bgr)[2..] == bgr;
    assert (alpha + bgr)[0] == alpha[0] && (alpha + bgr)[1] == alpha[1];
    assert ("$" + bgr)[1..] == bgr;
  }

  // ---------------------------------------------------------------------------
  // Cardinality
  // ---------------------------------------------------------------------------

  predicate IsMany(t: int) { t == 3 || t == 4 }

  predicate IsOne(t: int) { t == 1 || t == 2 }

  /** `resolveCardinality`: the cardinality of a relation from the kinds of
      its two ends, and whether its ends must be swapped so that the parent
      is the "one" side. */
  function ResolveCardinality(type1: int, type2: int): (r: (seq<char>, bool))
    ensures r.1 <==> IsMany(type1) && IsOne(type2)
    ensures r.0 == "N:M" <==> IsMany(type1) && IsMany(type2)
    ensures r.0 == "1:1" <==> IsOne(type1) && IsOne(type2)
    ensures r.0 == "1:N" <==> !(IsMany(type1) && IsMany(type2)) && !(IsOne(type1) && IsOne(type2))
  {
    if IsMany(type1) && IsMany(type2) then ("N:M", false)
    else if IsOne(type1) && IsMany(type2) then ("1:N", false)
    else if IsMany(type1) && IsOne(type2) then ("1:N", true)
    else if IsOne(type1) && IsOne(type2) then ("1:1", false)
    else ("1:N", false)
  }

  // ---------------------------------------------------------------------------
  // Quoted CSV
  // ---------------------------------------------------------------------------

  function SkipSpaces(s: seq<char>): (r: seq<char>)
    ensures |r| <= |s|
    ensures r == [] || r[0] != ' '
  {
    if s != [] && s[0] == ' ' then SkipSpaces(s[1..]) else s
  }

  /** A quoted value, read from just after its opening quote: `""` stands
      for `"`, and the value ends at the next single `"` or at the end of
      the text. The rest is what follows the closing quote. */
  function QuotedValue(s: seq<char>): (r: (seq<char>, seq<char>))
    ensures |r.1| <= |s|
  {
    if s == [] then ([], [])
    else if s[0] == '"' then
      if |s| > 1 && s[1] == '"' then WithFirst('"', QuotedValue(s[2..])) else ([], s[1..])
    else WithFirst(s[0], QuotedValue(s[1..]))
  }

  /** A value read with one more character in front of it. */
  function WithFirst(c: char, r: (seq<char>, seq<char>)): (seq<char>, seq<char>) {
    ([c] + r.0, r.1)
  }

  /** An unquoted value: everything up to the next comma. */
  function UpToComma(s: seq<char>): (r: seq<char>)
    ensures |r| <= |s|
    ensures s != [] && s[0] != ',' ==> r != []
  {
    if s == [] || s[0] == ',' then [] else [s[0]] + UpToComma(s[1..])
  }

  function SkipComma(s: seq<char>): (r: seq<char>)
    ensures |r| <= |s|
    ensures s != [] && s[0] == ',' ==> |r| < |s|
  {
    if s != [] && s[0] == ',' then s[1..] else s
  }

  /** The fields `parseQuotedCSV` reads: leading spaces are skipped, a
      field is quoted or runs to the next comma, and one comma after a
      field is consumed, so that a trailing comma starts no field. */
  function CsvFields(s: seq<char>): seq<seq<char>>
    decreases |s|
  {
    var t := SkipSpaces(s);
    if t == [] then []
    else if t[0] == '"' then
      var (v, rest) := QuotedValue(t[1..]);
      [v] + CsvFields(SkipComma(rest))
    else
      var v := UpToComma(t);
      [v] + CsvFields(SkipComma(t[|v|..]))
  }

  method SkipSpacesAt(raw: seq<char>, i: nat) returns (j: nat)
    requires i <= |raw|
    ensures i <= j <= |raw| && raw[j..] == SkipSpaces(raw[i..])
  {
    j := i;
    while j < |raw| && raw[j] == ' '
      invariant i <= j <= |raw| && SkipSpaces(raw[j..]) == SkipSpaces(raw[i..])
    {
      assert raw[j..][1..] == raw[j + 1..];
      j := j + 1;
    }
  }

  method ReadQuotedAt(raw: seq<char>, i: nat) returns (value: seq<char>, j: nat)
    requires i <= |raw|
    ensures i <= j <= |raw| && (value, raw[j..]) == QuotedValue(raw[i..])
  {
    value := [];
    j := i;
    assert value + QuotedValue(raw[j..]).0 == QuotedValue(raw[j..]).0;
    while j < |raw|
      invariant i <= j <= |raw|
      invariant QuotedValue(raw[i..]).0 == value + QuotedValue(raw[j..]).0
      invariant QuotedValue(raw[i..]).1 == QuotedValue(raw[j..]).1
    {
      var s := raw[j..];
      if raw[j] == '"' {
        if j + 1 < |raw| && raw[j + 1] == '"' {
          assert s[2..] == raw[j + 2..];
          assert QuotedValue(s) == WithFirst('"', QuotedValue(raw[j + 2..]));
          AppendAssoc(value, ['"'], QuotedValue(raw[j + 2..]).0);
          value := value + ['"'];
          j := j + 2;
        } else {
          assert s[1..] == raw[j + 1..];
          assert value + [] == value;
          return value, j + 1;
        }
      } else {
        assert s[1..] == raw[j + 1..];
        assert QuotedValue(s) == WithFirst(raw[j], QuotedValue(raw[j + 1..]));
        AppendAssoc(value, [raw[j]], QuotedValue(raw[j + 1..]).0);
        value := value + [raw[j]];
        j := j + 1;
      }
    }
    assert value + [] == value;
  }

  method ReadUnquotedAt(raw: seq<char>, i: nat) returns (value: seq<char>, j: nat)
    requires i <= |raw|
    ensures value == UpToComma(raw[i..]) && j == i + |value| <= |raw|
  {
    value := [];
    j := i;
    while j < |raw| && raw[j] != ','
      invariant i <= j <= |raw|
      invariant UpToComma(raw[i..]) == value + UpToComma(raw[j..]) && j == i + |value|
    {
      assert raw[j..][1..] == raw[j + 1..];
      AppendAssoc(value, [raw[j]], UpToComma(raw[j + 1..]));
      value := value + [raw[j]];
      j := j + 1;
    }
    assert value + [] == value;
  }

  /** One field and the comma after it, read from position `i`. */
  lemma CsvFieldsAt(raw: seq<char>, i: nat, j: nat, value: seq<char>, k: nat, next: nat)
    requires i <= j < |raw| && raw[j..] == SkipSpaces(raw[i..]) && k <= |raw|
    requires raw[j] == '"' ==> (value, raw[k..]) == QuotedValue(raw[j + 1..])
    requires raw[j] != '"' ==> value == UpToComma(raw[j..]) && k == j + |value|
    requires next == if k < |raw| && raw[k] == ',' then k + 1 else k
    ensures i < next <= |raw|
    ensures CsvFields(raw[i..]) == [value] + CsvFields(raw[next..])
  {
    assert raw[j..][1..] == raw[j + 1..];
    if raw[j] != '"' {
      assert raw[j..][|value|..] == raw[k..];
    }
    assert SkipComma(raw[k..]) == raw[next..];
  }

  lemma FieldsAppendAssoc(a: seq<seq<char>>, b: seq<seq<char>>, c: seq<seq<char>>)
    ensures (a + b) + c == a + (b + c)
  {
  }

  /** `parseQuotedCSV` */
  method ParseQuotedCsv(raw: seq<char>) returns (result: seq<seq<char>>)
    ensures result == CsvFields(raw)
  {
    result := [];
    var i := 0;
    while i < |raw|
      invariant 0 <= i <= |raw|
      invariant CsvFields(raw) == result + CsvFields(raw[i..])
      decreases |raw| - i
    {
      var found, value, next := ReadField(raw, i);
      if !found {
        break;
      }
      FieldsAppendAssoc(result, [value], CsvFields(raw[next..]));
      result := result + [value];
      i := next;
    }
    assert CsvFields(raw[i..]) == [] by {
      if i == |raw| { assert raw[i..] == []; }
    }
    assert result + [] == result;
  }

  /** One pass of that loop: the spaces, one field and the comma after it,
      or nothing when only spaces are left. */
  method ReadField(raw: seq<char>, i: nat) returns (found: bool, value: seq<char>, next: nat)
    requires i < |raw|
    ensures !found ==> CsvFields(raw[i..]) == []
    ensures found ==> i < next <= |raw| && CsvFields(raw[i..]) == [value] + CsvFields(raw[next..])
  {
    var j := SkipSpacesAt(raw, i);
    if j >= |raw| {
      assert raw[j..] == [];
      return false, [], i;
    }
    var k;
    if raw[j] == '"' {
      value, k := ReadQuotedAt(raw, j + 1);
    } else {
      value, k := ReadUnquotedAt(raw, j);
    }
    found, next := true, k;
    if k < |raw| && raw[k] == ',' {
      next := k + 1;
    }
    CsvFieldsAt(raw, i, j, value, k, next);
  }

  // Writing fields as quoted CSV, and reading them back.

  function DoubleQuoteEscape(c: char): seq<char> { if c == '"' then "\"\"" else [c] }

  /** A value as a quoted CSV field. */
  function CsvQuoted(v: seq<char>): seq<char> {
    "\"" + MapConcat(v, DoubleQuoteEscape) + "\""
  }

  /** Values as a line of quoted CSV fields. */
  function CsvLine(vs: seq<seq<char>>): seq<char> {
    Join(Map(vs, CsvQuoted), ",")
  }

  lemma {:induction false} QuotedValueOf(v: seq<char>, rest: seq<char>)
    requires rest == [] || rest[0] != '"'
    ensures QuotedValue(MapConcat(v, DoubleQuoteEscape) + "\"" + rest) == (v, rest)
    decreases |v|
  {
    var s := MapConcat(v, DoubleQuoteEscape) + "\"" + rest;
    if v == [] {
      assert s == ['"'] + rest;
      assert s[1..] == rest;
    } else {
      var tail := MapConcat(v[1..], DoubleQuoteEscape) + "\"" + rest;
      assert s == DoubleQuoteEscape(v[0]) + tail by {
        MapConcatCons(v[0], v[1..], DoubleQuoteEscape);
        assert v == [v[0]] + v[1..];
      }
      QuotedValueOf(v[1..], rest);
      QuotedValueCons(v[0], tail);
      assert v == [v[0]] + v[1..];
    }
  }

  /** An escaped character in front of a quoted value. */
  lemma QuotedValueCons(c: char, tail: seq<char>)
    ensures QuotedValue(DoubleQuoteEscape(c) + tail) == WithFirst(c, QuotedValue(tail))
  {
    var s := DoubleQuoteEscape(c) + tail;
    if c == '"' {
      assert s[2..] == tail;
    } else {
      assert s[1..] == tail;
    }
  }

  /** A quoted field is read back as its value, and reading goes on after
      the comma that follows it. */
  lemma CsvFieldsQuoted(v: seq<char>, rest: seq<char>)
    requires rest == [] || rest[0] == ','
    ensures CsvFields(CsvQuoted(v) + rest) == [v] + CsvFields(SkipComma(rest))
  {
    var s := CsvQuoted(v) + rest;
    assert s[0] == '"';
    assert SkipSpaces(s) == s;
    assert s[1..] == MapConcat(v, DoubleQuoteEscape) + "\"" + rest;
    QuotedValueOf(v, rest);
  }

  /** Values written as quoted CSV read back as the same values, whether or
      not the line ends with a comma: a trailing comma adds no field. */
  lemma {:induction false} CsvRoundTrip(vs: seq<seq<char>>, tail: seq<char>)
    requires tail == [] || tail == ","
    requires vs == [] ==> tail == []
    ensures CsvFields(CsvLine(vs) + tail) == vs
    decreases |vs|
  {
    if vs == [] {
      assert CsvLine(vs) + tail == [];
    } else if |vs| == 1 {
      MapHead(vs, CsvQuoted);
      assert CsvLine(vs) == CsvQuoted(vs[0]);
      CsvFieldsQuoted(vs[0], tail);
      assert SkipComma(tail) == [];
      assert vs == [vs[0]];
    } else {
      var restLine := CsvLine(vs[1..]);
      CsvLineCons(vs);
      AppendAssoc(CsvQuoted(vs[0]), "," + restLine, tail);
      CsvFieldsQuoted(vs[0], "," + restLine + tail);
      assert SkipComma("," + restLine + tail) == restLine + tail;
      CsvRoundTrip(vs[1..], tail);
      assert vs == [vs[0]] + vs[1..];
    }
  }

  lemma CsvLineCons(vs: seq<seq<char>>)
    requires |vs| >= 2
    ensures CsvLine(vs) == CsvQuoted(vs[0]) + ("," + CsvLine(vs[1..]))
  {
    MapHead(vs, CsvQuoted);
  }

  // ---------------------------------------------------------------------------
  // Sections of the text format
  // ---------------------------------------------------------------------------

  datatype Section = Section(kind: seq<char>, lines: seq<seq<char>>)

  /** The section kinds whose contents are read; any other section is
      skipped. */
  predicate KeptKind(kind: seq<char>) {
    kind == "Entity" || kind == "Relation" || kind == "Shape"
  }

  /** A line without its one trailing carriage return. */
  function StripCr(line: seq<char>): (r: seq<char>)
    ensures r == line || r + "\r" == line
  {
    if line != [] && line[|line| - 1] == '\r' then line[..|line| - 1] else line
  }

  /** A section header: `[`, at least one character, `]`. */
  predicate IsHeader(line: seq<char>) {
    |line| >= 3 && line[0] == '[' && line[|line| - 1] == ']'
  }

  /** The state of the line scan: the kind of the open section (empty when
      none is open), its lines so far, and the sections already closed. */
  datatype Scan = Scan(current: seq<char>, pending: seq<seq<char>>, done: seq<Section>)

  /** The closed sections once the open one is closed. */
  function Close(s: Scan): seq<Section> {
    if KeptKind(s.current) then s.done + [Section(s.current, s.pending)] else s.done
  }

  /** One line of the scan: a header closes the open section and opens its
      own; `DEL` closes the open section; any other line belongs to the open
      section, and is dropped when there is none. */
  function Step(s: Scan, raw: seq<char>): Scan {
    var line := StripCr(raw);
    if IsHeader(line) then Scan(line[1..|line| - 1], [], Close(s))
    else if line == "DEL" && s.current != [] then Scan([], [], Close(s))
    else if s.current != [] then s.(pending := s.pending + [line])
    else s
  }

  function ScanLines(lines: seq<seq<char>>): Scan {
    if lines == [] then Scan([], [], [])
    else Step(ScanLines(lines[..|lines| - 1]), lines[|lines| - 1])
  }

  /** The kept sections of a text, in order; the last one needs no `DEL`. */
  function Sections(content: seq<char>): seq<Section> {
    Close(ScanLines(GetlinePieces(content, '\n')))
  }

  /** The first loop of `parseTextFormat`. */
  method SplitSections(content: seq<char>) returns (sections: seq<Section>)
    ensures sections == Sections(content)
  {
    var lines := GetlinePieces(content, '\n');
    var current: seq<char> := [];
    var pending: seq<seq<char>> := [];
    var done: seq<Section> := [];
    for i := 0 to |lines|
      invariant Scan(current, pending, done) == ScanLines(lines[..i])
    {
      assert lines[..i + 1][..i] == lines[..i];
      current, pending, done := ScanLine(current, pending, done, lines[i]);
    }
    assert lines[..|lines|] == lines;
    sections := done;
    if current != [] && (current == "Entity" || current == "Relation" || current == "Shape") {
      sections := done + [Section(current, pending)];
    }
  }

  /** The body of that loop, for one line. */
  method ScanLine(current: seq<char>, pending: seq<seq<char>>, done: seq<Section>, raw: seq<char>)
    returns (current': seq<char>, pending': seq<seq<char>>, done': seq<Section>)
    ensures Scan(current', pending', done') == Step(Scan(current, pending, done), raw)
  {
    current', pending', done' := current, pending, done;
    var line := raw;
    if line != [] && line[|line| - 1] == '\r' {
      line := line[..|line| - 1];
    }
    if |line| >= 3 && line[0] == '[' && line[|line| - 1] == ']' {
      if current != [] && (current == "Entity" || current == "Relation" || current == "Shape") {
        done' := done + [Section(current, pending)];
      }
      current' := line[1..|line| - 1];
      pending' := [];
    } else if line == "DEL" && current != [] {
      if current == "Entity" || current == "Relation" || current == "Shape" {
        done' := done + [Section(current, pending)];
      }
      current' := [];
      pending' := [];
    } else if current != [] {
      pending' := pending + [line];
    }
  }

  /** No line of a section is a header or `DEL`. */
  predicate PlainLines(lines: seq<seq<char>>) {
    forall k :: 0 <= k < |lines| ==> !IsHeader(lines[k]) && lines[k] != "DEL"
  }

  predicate GoodSections(sections: seq<Section>) {
    forall k :: 0 <= k < |sections| ==> KeptKind(sections[k].kind) && PlainLines(sections[k].lines)
  }

  /** What the scan keeps true: closed sections are of a kept kind and hold
      plain lines, and lines are only gathered while a section is open. */
  predicate GoodScan(s: Scan) {
    GoodSections(s.done) && PlainLines(s.pending) && (s.current == [] ==> s.pending == [])
  }

  lemma CloseGood(s: Scan)
    requires GoodScan(s)
    ensures GoodSections(Close(s))
  {
  }

  lemma StepGood(s: Scan, raw: seq<char>)
    requires GoodScan(s)
    ensures GoodScan(Step(s, raw))
  {
    var line := StripCr(raw);
    CloseGood(s);
    if !IsHeader(line) && !(line == "DEL" && s.current != []) && s.current != [] {
      assert line != "DEL";
      var p := s.pending + [line];
      assert forall k :: 0 <= k < |p| ==> p[k] == (if k < |s.pending| then s.pending[k] else line);
    }
  }

  lemma {:induction false} ScanLinesGood(lines: seq<seq<char>>)
    ensures GoodScan(ScanLines(lines))
    decreases |lines|
  {
    if lines != [] {
      ScanLinesGood(lines[..|lines| - 1]);
      StepGood(ScanLines(lines[..|lines| - 1]), lines[|lines| - 1]);
    }
  }

  /** Every section read is an entity, relation or shape section, and none
      of its lines is a header or `DEL`. */
  lemma SectionsGood(content: seq<char>)
    ensures GoodSections(Sections(content))
  {
    var lines := GetlinePieces(content, '\n');
    ScanLinesGood(lines);
    CloseGood(ScanLines(lines));
  }

  /** Lines before the first header belong to no section: a text without a
      header has no sections. */
  lemma {:induction false} NoHeaderNoScan(lines: seq<seq<char>>)
    requires forall k :: 0 <= k < |lines| ==> !IsHeader(StripCr(lines[k]))
    ensures ScanLines(lines) == Scan([], [], [])
    decreases |lines|
  {
    if lines != [] {
      var init := lines[..|lines| - 1];
      assert forall k :: 0 <= k < |init| ==> init[k] == lines[k];
      NoHeaderNoScan(init);
    }
  }

  lemma NoHeaderNoSections(content: seq<char>)
    requires forall k :: 0 <= k < |GetlinePieces(content, '\n')| ==> !IsHeader(StripCr(GetlinePieces(content, '\n')[k]))
    ensures Sections(content) == []
  {
    NoHeaderNoScan(GetlinePieces(content, '\n'));
  }

  // ---------------------------------------------------------------------------
  // Properties (`key=value` lines)
  // ---------------------------------------------------------------------------

  type Props = map<seq<char>, seq<char>>

  /** A line sets the property `key` when the text before its first `=` is
      `key`. */
  predicate Sets(line: seq<char>, key: seq<char>) {
    match IndexOf(line, '=')
    case None => false
    case Some(eq) => line[..eq] == key
  }

  /** One line read into the properties: the text before the first `=` is
      the key and the rest the value; a line without `=` is ignored. */
  function PropLine(props: Props, line: seq<char>): Props {
    match IndexOf(line, '=')
    case None => props
    case Some(eq) => props[line[..eq] := line[eq + 1..]]
  }

  function PropsOf(lines: seq<seq<char>>): Props {
    if lines == [] then map[] else PropLine(PropsOf(lines[..|lines| - 1]), lines[|lines| - 1])
  }

  /** The property loop of the relation and shape sections. */
  method ReadProps(lines: seq<seq<char>>) returns (props: Props)
    ensures props == PropsOf(lines)
  {
    props := map[];
    for i := 0 to |lines|
      invariant props == PropsOf(lines[..i])
    {
      assert lines[..i + 1][..i] == lines[..i];
      var line := lines[i];
      var eq := IndexOf(line, '=');
      if eq.Some? {
        props := props[line[..eq.value] := line[eq.value + 1..]];
      }
    }
    assert lines[..|lines|] == lines;
  }

  /** A key is set exactly when some line sets it. */
  lemma {:induction false} PropsKeys(lines: seq<seq<char>>, key: seq<char>)
    ensures key in PropsOf(lines) <==> exists k :: 0 <= k < |lines| && Sets(lines[k], key)
    decreases |lines|
  {
    if lines != [] {
      var init := lines[..|lines| - 1];
      PropsKeys(init, key);
      assert forall k :: 0 <= k < |init| ==> init[k] == lines[k];
      if exists k :: 0 <= k < |lines| && Sets(lines[k], key) {
        var k :| 0 <= k < |lines| && Sets(lines[k], key);
        if k < |init| {
          assert Sets(init[k], key);
        }
      }
    }
  }

  /** The line that sets a key last gives its value. */
  lemma PropsLastWins(lines: seq<seq<char>>, line: seq<char>, key: seq<char>)
    requires Sets(line, key)
    ensures key in PropsOf(lines + [line])
    ensures PropsOf(lines + [line])[key] == line[IndexOf(line, '=').value + 1..]
  {
    assert (lines + [line])[..|lines|] == lines;
  }

  /** A line that does not set a key leaves it as it was. */
  lemma PropsOtherLine(lines: seq<seq<char>>, line: seq<char>, key: seq<char>)
    requires !Sets(line, key)
    ensures GetProp(PropsOf(lines + [line]), key) == GetProp(PropsOf(lines), key)
  {
    assert (lines + [line])[..|lines|] == lines;
  }

  /** `getProp`: the value, or the empty string for a missing key. */
  function GetProp(props: Props, key: seq<char>): seq<char> {
    if key in props then props[key] else []
  }

  /** `getPropInt`: the number `from_chars` reads from the value, or 0 when
      the value is missing or does not start with a number. */
  function GetPropInt(props: Props, key: seq<char>): int {
    match FromChars(GetProp(props, key))
    case Some(v) => v
    case None => 0
  }

  // ---------------------------------------------------------------------------
  // Entity sections
  // ---------------------------------------------------------------------------

  predicate IsFieldLine(line: seq<char>) { StartsWith(line, "Field=") }

  predicate IsIndexLine(line: seq<char>) { StartsWith(line, "Index=") }

  /** A line that is neither a field nor an index: a property line. */
  predicate IsPropLine(line: seq<char>) { !IsFieldLine(line) && !IsIndexLine(line) }

  /** The `k`-th field of a `Field=` line, empty when there are fewer. */
  function At(parts: seq<seq<char>>, k: nat): seq<char> {
    if k < |parts| then parts[k] else []
  }

  /** The column of a `Field=` line: name, logical name, type, `NOT NULL`,
      primary-key order (any text marks a key column), default and comment
      (both with `\q` removed) and colour. Size and scale are 0. */
  function FieldColumn(parts: seq<seq<char>>): (c: Column)
    ensures c.size == 0 && c.scale == 0
    ensures c.name == At(parts, 0) && c.sqlType == At(parts, 2) && c.color == At(parts, 7)
    ensures !c.nullable <==> |parts| > 3 && parts[3] == "NOT NULL"
    ensures c.isPrimaryKey <==> |parts| > 4 && parts[4] != []
  {
    Column(At(parts, 0), At(parts, 1), At(parts, 2), 0, 0,
           |parts| <= 3 || parts[3] != "NOT NULL",
           |parts| > 4 && parts[4] != [],
           Unescaped(At(parts, 5)), Unescaped(At(parts, 6)), At(parts, 7))
  }

  /** The column of a field line, read from after `Field=`. */
  function FieldLineColumn(line: seq<char>): Column {
    FieldColumn(CsvFields(if |line| >= 6 then line[6..] else []))
  }

  /** The index of an `Index=` line, read from after `Index=`: a name up to
      the first `=`, then comma-separated pieces, the first of which is `1`
      for a unique index and the rest of which are the columns. Without `=`
      the line gives no index. */
  function IndexOfLine(raw: seq<char>): (r: Option<Index>)
    ensures r.Some? <==> '=' in raw
    ensures r.Some? ==> '=' !in r.value.name
  {
    match IndexOf(raw, '=')
    case None => None
    case Some(eq) =>
      var pieces := GetlinePieces(raw[eq + 1..], ',');
      Some(Index(raw[..eq], if pieces == [] then [] else pieces[1..], pieces != [] && pieces[0] == "1"))
  }

  /** An `Index=` line as A5:ER writes it (a name, `=`, the unique flag and
      the columns, each followed by a comma) is read back as that index: the
      flag `1`, and only it, marks it unique. */
  lemma IndexLineRoundTrip(name: seq<char>, flag: seq<char>, columns: seq<seq<char>>)
    requires '=' !in name && ',' !in flag
    requires forall k :: 0 <= k < |columns| ==> ',' !in columns[k]
    ensures IndexOfLine(name + "=" + Join([flag] + columns + [[]], ","))
            == Some(Index(name, columns, flag == "1"))
  {
    var rest := Join([flag] + columns + [[]], ",");
    var raw := name + "=" + rest;
    assert raw[..|name|] == name;
    IndexOfAt(raw, '=', |name|);
    assert raw[|name| + 1..] == rest;
    var fields := [flag] + columns;
    assert fields + [[]] == [flag] + columns + [[]];
    assert forall k :: 0 <= k < |fields| ==> ',' !in fields[k] by {
      forall k | 0 <= k < |fields| ensures ',' !in fields[k] {
        if k > 0 { assert fields[k] == columns[k - 1]; }
      }
    }
    GetlineLines(fields, ',');
    assert fields[1..] == columns;
  }

  /** What an entity section has gathered: its columns, its indexes and its
      other properties. */
  datatype Entity = Entity(columns: seq<Column>, indexes: seq<Index>, props: Props)

  function EntityStep(e: Entity, line: seq<char>): Entity {
    if IsFieldLine(line) then e.(columns := e.columns + [FieldLineColumn(line)])
    else if IsIndexLine(line) then
      match IndexOfLine(line[6..])
      case None => e
      case Some(index) => e.(indexes := e.indexes + [index])
    else e.(props := PropLine(e.props, line))
  }

  function EntityOf(lines: seq<seq<char>>): Entity {
    if lines == [] then Entity([], [], map[])
    else EntityStep(EntityOf(lines[..|lines| - 1]), lines[|lines| - 1])
  }

  /** The table of an entity section. */
  function EntityTable(lines: seq<seq<char>>): Table {
    var e := EntityOf(lines);
    Table(GetProp(e.props, "PName"), GetProp(e.props, "LName"), GetProp(e.props, "Comment"),
          GetProp(e.props, "Page"), e.columns, e.indexes, GetProp(e.props, "Color"), GetProp(e.props, "BkColor"))
  }

  /** The line loop of an entity section. */
  method ReadEntity(lines: seq<seq<char>>) returns (table: Table)
    ensures table == EntityTable(lines)
  {
    var columns: seq<Column> := [];
    var indexes: seq<Index> := [];
    var props: Props := map[];
    for i := 0 to |lines|
      invariant Entity(columns, indexes, props) == EntityOf(lines[..i])
    {
      assert lines[..i + 1][..i] == lines[..i];
      var line := lines[i];
      if StartsWith(line, "Field=") {
        var parts := ParseQuotedCsv(line[6..]);
        columns := columns + [FieldColumn(parts)];
      } else if StartsWith(line, "Index=") {
        var index := IndexOfLine(line[6..]);
        if index.Some? {
          indexes := indexes + [index.value];
        }
      } else {
        var eq := IndexOf(line, '=');
        if eq.Some? {
          props := props[line[..eq.value] := line[eq.value + 1..]];
        }
      }
    }
    assert lines[..|lines|] == lines;
    table := Table(GetProp(props, "PName"), GetProp(props, "LName"), GetProp(props, "Comment"),
                   GetProp(props, "Page"), columns, indexes, GetProp(props, "Color"), GetProp(props, "BkColor"));
  }

  /** What one line adds to an entity's columns and properties. */
  lemma EntityStepParts(e: Entity, line: seq<char>)
    ensures EntityStep(e, line).columns == e.columns + (if IsFieldLine(line) then [FieldLineColumn(line)] else [])
    ensures EntityStep(e, line).props == if IsPropLine(line) then PropLine(e.props, line) else e.props
  {
  }

  /** An entity's columns are its field lines, in order. */
  lemma {:induction false} EntityColumns(lines: seq<seq<char>>)
    ensures EntityOf(lines).columns == Map(Filter(lines, IsFieldLine), FieldLineColumn)
    decreases |lines|
  {
    if lines != [] {
      var n := |lines| - 1;
      var init, last := lines[..n], lines[n];
      EntityColumns(init);
      assert EntityOf(lines) == EntityStep(EntityOf(init), last);
      EntityStepParts(EntityOf(init), last);
      FilterSnoc(lines, n, IsFieldLine);
      assert lines[..n + 1] == lines;
      var fields := Filter(init, IsFieldLine);
      if IsFieldLine(last) {
        assert Filter(lines, IsFieldLine) == fields + [last];
        MapAppend(fields, [last], FieldLineColumn);
        assert Map([last], FieldLineColumn) == [FieldLineColumn(last)];
        assert EntityOf(lines).columns == EntityOf(init).columns + [FieldLineColumn(last)];
      } else {
        assert Filter(lines, IsFieldLine) == fields;
        assert EntityOf(lines).columns == EntityOf(init).columns;
      }
    }
  }

  /** An entity's properties are read from its property lines only: a
      `Field=` or `Index=` line never sets a property. */
  lemma {:induction false} EntityProps(lines: seq<seq<char>>)
    ensures EntityOf(lines).props == PropsOf(Filter(lines, IsPropLine))
    decreases |lines|
  {
    if lines != [] {
      var n := |lines| - 1;
      var init, last := lines[..n], lines[n];
      EntityProps(init);
      EntityStepParts(EntityOf(init), last);
      FilterSnoc(lines, n, IsPropLine);
      assert lines[..n + 1] == lines;
      var others := Filter(init, IsPropLine);
      if IsPropLine(last) {
        assert (others + [last])[..|others|] == others;
        assert PropsOf(others + [last]) == PropLine(PropsOf(others), last);
      } else {
        assert Filter(lines, IsPropLine) == others;
      }
    }
  }

  // ---------------------------------------------------------------------------
  // Relation and shape sections
  // ---------------------------------------------------------------------------

  /** The relation of a relation section's properties: `Entity1` and
      `Fields1` are the parent unless the relation types say the first end
      is the "many" side and the second the "one" side, in which case the
      ends are swapped; the name is `parent_child`. */
  function RelationOf(props: Props): (r: Relation)
    ensures r.name == r.parentTable + "_" + r.childTable
    ensures r.cardinality == "1:1" || r.cardinality == "1:N" || r.cardinality == "N:M"
    ensures var swapped := IsMany(GetPropInt(props, "RelationType1")) && IsOne(GetPropInt(props, "RelationType2"));
      (!swapped ==> (r.parentTable == GetProp(props, "Entity1") && r.parentColumn == GetProp(props, "Fields1")
                     && r.childTable == GetProp(props, "Entity2") && r.childColumn == GetProp(props, "Fields2")))
      && (swapped ==> (r.parentTable == GetProp(props, "Entity2") && r.parentColumn == GetProp(props, "Fields2")
                      && r.childTable == GetProp(props, "Entity1") && r.childColumn == GetProp(props, "Fields1")))
  {
    var (cardinality, swap) := ResolveCardinality(GetPropInt(props, "RelationType1"), GetPropInt(props, "RelationType2"));
    var e1, e2 := GetProp(props, "Entity1"), GetProp(props, "Entity2");
    var f1, f2 := GetProp(props, "Fields1"), GetProp(props, "Fields2");
    if swap then Relation(e2 + "_" + e1, e2, e1, f2, f1, cardinality)
    else Relation(e1 + "_" + e2, e1, e2, f1, f2, cardinality)
  }

  /** The shape of a shape section's properties: the text has `\q`
      removed, a missing `BrushAlpha` is 255, and a missing or zero
      `FontSize` is 9. */
  function ShapeOf(props: Props): (s: Shape)
    ensures s.fontSize != 0
    ensures GetProp(props, "BrushAlpha") == [] ==> s.brushAlpha == 255
    ensures GetProp(props, "BrushAlpha") != [] ==> s.brushAlpha == GetPropInt(props, "BrushAlpha")
    ensures GetPropInt(props, "FontSize") != 0 ==> s.fontSize == GetPropInt(props, "FontSize")
    ensures s.text == Unescaped(GetProp(props, "Text"))
  {
    var alpha := GetPropInt(props, "BrushAlpha");
    var fontSize := GetPropInt(props, "FontSize");
    Shape(GetProp(props, "ShapeType"), Unescaped(GetProp(props, "Text")),
          GetProp(props, "BrushColor"), GetProp(props, "FontColor"),
          if alpha == 0 && GetProp(props, "BrushAlpha") == [] then 255 else alpha,
          if fontSize == 0 then 9 else fontSize,
          GetProp(props, "Page"))
  }

  /** An explicit `BrushAlpha=0` is kept: only a missing alpha means
      opaque. */
  lemma ShapeZeroAlpha(props: Props)
    requires GetProp(props, "BrushAlpha") == "0"
    ensures ShapeOf(props).brushAlpha == 0
  {
    FromCharsNat(0);
  }

  // ---------------------------------------------------------------------------
  // The whole text format
  // ---------------------------------------------------------------------------

  /** What the sections add to the model: a table per entity, a relation
      per relation and a shape per shape section, each in file order. The
      model's name and database type stay empty. */
  function AddSection(m: Model, section: Section): Model {
    if section.kind == "Entity" then m.(tables := m.tables + [EntityTable(section.lines)])
    else if section.kind == "Relation" then m.(relations := m.relations + [RelationOf(PropsOf(section.lines))])
    else if section.kind == "Shape" then m.(shapes := m.shapes + [ShapeOf(PropsOf(section.lines))])
    else m
  }

  function ModelOf(sections: seq<Section>): Model {
    if sections == [] then Model([], [], [], [], [])
    else AddSection(ModelOf(sections[..|sections| - 1]), sections[|sections| - 1])
  }

  /** The model `parseTextFormat` reads from a text. */
  function TextModel(content: seq<char>): Model {
    ModelOf(Sections(content))
  }

  /** `parseTextFormat`: the sections, then the section loop. */
  method ParseTextFormat(content: seq<char>) returns (model: Model)
    ensures model == TextModel(content)
  {
    var sections := SplitSections(content);
    model := Model([], [], [], [], []);
    for i := 0 to |sections|
      invariant model == ModelOf(sections[..i])
    {
      assert sections[..i + 1][..i] == sections[..i];
      var section := sections[i];
      if section.kind == "Entity" {
        var table := ReadEntity(section.lines);
        model := model.(tables := model.tables + [table]);
      } else if section.kind == "Relation" {
        var props := ReadProps(section.lines);
        model := model.(relations := model.relations + [RelationOf(props)]);
      } else if section.kind == "Shape" {
        var props := ReadProps(section.lines);
        model := model.(shapes := model.shapes + [ShapeOf(props)]);
      }
    }
    assert sections[..|sections|] == sections;
  }

  predicate IsEntitySection(section: Section) { section.kind == "Entity" }

  function SectionTable(section: Section): Table { EntityTable(section.lines) }

  /** The model's tables are its entity sections' tables, in order, and its
      name is empty. */
  lemma {:induction false} ModelTables(sections: seq<Section>)
    ensures ModelOf(sections).tables == Map(Filter(sections, IsEntitySection), SectionTable)
    ensures ModelOf(sections).name == []
    decreases |sections|
  {
    if sections != [] {
      var n := |sections| - 1;
      var init, last := sections[..n], sections[n];
      ModelTables(init);
      assert ModelOf(sections) == AddSection(ModelOf(init), last);
      FilterSnoc(sections, n, IsEntitySection);
      assert sections[..n + 1] == sections;
      var entities := Filter(init, IsEntitySection);
      if IsEntitySection(last) {
        assert Filter(sections, IsEntitySection) == entities + [last];
        MapAppend(entities, [last], SectionTable);
        assert Map([last], SectionTable) == [SectionTable(last)];
        assert ModelOf(sections).tables == ModelOf(init).tables + [SectionTable(last)];
      } else {
        assert Filter(sections, IsEntitySection) == entities;
        assert ModelOf(sections).tables == ModelOf(init).tables;
      }
    }
  }

  // ---------------------------------------------------------------------------
  // Format detection and the entry points
  // ---------------------------------------------------------------------------

  /** The three bytes of a UTF-8 byte-order mark, one character each. */
  const Bom: seq<char> := [0xEF as char, 0xBB as char, 0xBF as char]

  /** The characters skipped when looking for the first character. */
  predicate Skippable(c: char) {
    c == ' ' || c == '\t' || c == '\r' || c == '\n' || c in Bom
  }

  /** `isTextFormat`: the first character that is not blank or a mark byte
      is not `<`, and the text holds the `# A5:ER` header. */
  predicate IsTextFormat(content: seq<char>) {
    var first := FindFirst(content, (c: char) => !Skippable(c));
    !(first.Some? && content[first.value] == '<') && Contains(content, "# A5:ER")
  }

  /** `canParse`: the text format, or the `<A5ER` XML element. */
  predicate CanParse(content: seq<char>) {
    IsTextFormat(content) || Contains(content, "<A5ER")
  }

  /** `extensions` */
  const Extensions: seq<seq<char>> := [".a5er"]

  /** Markup after blanks is never the text format, whatever it holds. */
  lemma MarkupNotText(blanks: seq<char>, rest: seq<char>)
    requires forall k :: 0 <= k < |blanks| ==> Skippable(blanks[k])
    requires rest != [] && rest[0] == '<'
    ensures !IsTextFormat(blanks + rest)
  {
    var s := blanks + rest;
    var notBlank := (c: char) => !Skippable(c);
    assert s[|blanks|] == '<' && notBlank(s[|blanks|]);
    var first := FindFirst(s, notBlank);
    assert forall j :: 0 <= j < |blanks| ==> s[j] == blanks[j];
    assert first == Some(|blanks|);
  }

  /** A text that starts with the `# A5:ER` header is the text format. */
  lemma HeaderIsText(rest: seq<char>)
    ensures IsTextFormat("# A5:ER" + rest)
    ensures CanParse("# A5:ER" + rest)
  {
    var s := "# A5:ER" + rest;
    var notBlank := (c: char) => !Skippable(c);
    assert notBlank(s[0]);
    assert FindFirst(s, notBlank) == Some(0);
    assert StartsWith(s[0..], "# A5:ER") by {
      assert s[0..][..7] == "# A5:ER";
    }
  }

  /** `parseFromString`: a leading byte-order mark is dropped, then the
      text format is read, and anything else goes to the XML reader, which
      is not part of this model and is passed in. */
  function ParseFromString(content: seq<char>, parseXml: seq<char> -> Model): Model {
    var input := if |content| >= 3 && content[..3] == Bom then content[3..] else content;
    if IsTextFormat(input) then TextModel(input) else parseXml(input)
  }

  /** A byte-order mark in front of a text changes nothing. */
  lemma BomIgnored(content: seq<char>, parseXml: seq<char> -> Model)
    requires !(|content| >= 3 && content[..3] == Bom)
    ensures ParseFromString(Bom + content, parseXml) == ParseFromString(content, parseXml)
  {
    assert (Bom + content)[..3] == Bom;
    assert (Bom + content)[3..] == content;
  }

  // ---------------------------------------------------------------------------
  // Conversion to the ER model
  // ---------------------------------------------------------------------------

  /** A colour of the ER model: empty, or `#RRGGBB`. */
  predicate ErColor(c: seq<char>) { c == [] || IsCssColor(c) }

  function ErColumn(c: Column): Column {
    c.(color := ConvertA5erColor(c.color))
  }

  function ErTable(t: Table): Table {
    t.(color := ConvertA5erColor(t.color), bkColor := ConvertA5erColor(t.bkColor), columns := Map(t.columns, ErColumn))
  }

  /** A shape of the ER model; its brush colour and alpha are the ER
      model's fill colour and alpha. */
  function ErShape(s: Shape): Shape {
    s.(shapeType := Lower(s.shapeType), brushColor := ConvertA5erColor(s.brushColor),
       fontColor := ConvertA5erColor(s.fontColor))
  }

  /** `toERModel` */
  function ToErModel(m: Model): (r: Model)
    ensures r.name == m.name && r.databaseType == m.databaseType && r.relations == m.relations
    ensures |r.tables| == |m.tables| && |r.shapes| == |m.shapes|
  {
    Model(m.name, m.databaseType, Map(m.tables, ErTable), m.relations, Map(m.shapes, ErShape))
  }

  /** Every colour of the converted model is empty or `#RRGGBB`, and shape
      types are in lower case. */
  lemma ErColors(m: Model)
    ensures forall k :: 0 <= k < |m.tables| ==>
      var t := ToErModel(m).tables[k];
      ErColor(t.color) && ErColor(t.bkColor) && forall j :: 0 <= j < |t.columns| ==> ErColor(t.columns[j].color)
    ensures forall k :: 0 <= k < |m.shapes| ==>
      var s := ToErModel(m).shapes[k];
      ErColor(s.brushColor) && ErColor(s.fontColor) && forall j :: 0 <= j < |s.shapeType| ==> !('A' <= s.shapeType[j] <= 'Z')
  {
    forall k | 0 <= k < |m.tables|
      ensures var t := ToErModel(m).tables[k];
        ErColor(t.color) && ErColor(t.bkColor) && forall j :: 0 <= j < |t.columns| ==> ErColor(t.columns[j].color)
    {
      MapAt(m.tables, ErTable, k);
      var t := m.tables[k];
      forall j | 0 <= j < |t.columns| ensures ErColor(Map(t.columns, ErColumn)[j].color) {
        MapAt(t.columns, ErColumn, j);
      }
    }
    forall k | 0 <= k < |m.shapes|
      ensures var s := ToErModel(m).shapes[k];
        ErColor(s.brushColor) && ErColor(s.fontColor) && forall j :: 0 <= j < |s.shapeType| ==> !('A' <= s.shapeType[j] <= 'Z')
    {
      MapAt(m.shapes, ErShape, k);
    }
  }

  /** Apart from colours and shape types, conversion changes nothing: every
      table and column keeps its name, type, keys, defaults, comments and
      indexes. */
  lemma ErKeepsStructure(m: Model, k: nat, j: nat)
    requires k < |m.tables| && j < |m.tables[k].columns|
    ensures var t := ToErModel(m).tables[k];
      t.(color := m.tables[k].color, bkColor := m.tables[k].bkColor, columns := m.tables[k].columns) == m.tables[k]
      && |t.columns| == |m.tables[k].columns|
      && t.columns[j].(color := m.tables[k].columns[j].color) == m.tables[k].columns[j]
  {
    MapAt(m.tables, ErTable, k);
    MapAt(m.tables[k].columns, ErColumn, j);
  }
}
