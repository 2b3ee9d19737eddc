/** `ERDiagramParserFactory`: picks the ER-diagram parser for a file from
    its extension and its content, and runs it. The factory registers one
    parser, the A5:ER one; a parser is represented by its kind, and what it
    does by the functions below. */
module ErDiagramParserFactory {
  import opened Wrappers
  import opened Strings
  import opened A5erParser
  import opened A5erDdl

  datatype Parser = A5er

  /** `IERDiagramParser::extensions` */
  function ParserExtensions(p: Parser): seq<seq<char>> {
    match p
    case A5er => Extensions
  }

  /** `IERDiagramParser::canParse` */
  predicate ParserCanParse(p: Parser, content: seq<char>) {
    match p
    case A5er => CanParse(content)
  }

  /** `IERDiagramParser::parse`: the file's model, as an ER model. The XML
      reader is a parameter, as in `ParseFromString`. */
  function ParserParse(p: Parser, content: seq<char>, parseXml: seq<char> -> Model): Model {
    match p
    case A5er => ToErModel(ParseFromString(content, parseXml))
  }

  /** `IERDiagramParser::generateDDL` */
  function ParserDdl(p: Parser, m: Model, target: TargetDatabase): seq<char> {
    match p
    case A5er => ErDdl(m, target)
  }

  const NoParser: seq<char> := "No parser found for the given ER diagram format"

  // ---------------------------------------------------------------------------
  // extractExtension
  // ---------------------------------------------------------------------------

  /** The extension of a file name: from its last dot to the end, in lower
      case; none when there is no dot or the only dot that counts starts
      the name. */
  function ExtensionOf(filename: seq<char>): (r: seq<char>)
    ensures r == [] || r[0] == '.'
    ensures forall k :: 0 <= k < |r| ==> !('A' <= r[k] <= 'Z')
    ensures r == [] <==> LastIndexOf(filename, '.').None? || LastIndexOf(filename, '.') == Some(0)
    ensures r != [] ==> |r| < |filename| && r == Lower(filename[|filename| - |r|..]) && '.' !in r[1..]
  {
    match LastIndexOf(filename, '.')
    case None => []
    case Some(dot) =>
      if dot == 0 then []
      else
        var r := Lower(filename[dot..]);
        assert forall k :: 1 <= k < |r| ==> r[k] == LowerChar(filename[dot + k]) && filename[dot + k] in filename[dot + 1..];
        r
  }

  /** A name with a stem, a dot and no further dot has that extension,
      whatever the case of its letters. */
  lemma ExtensionOfSuffix(stem: seq<char>, ext: seq<char>)
    requires stem != [] && ext != [] && ext[0] == '.' && '.' !in ext[1..]
    ensures ExtensionOf(stem + ext) == Lower(ext)
  {
    var name := stem + ext;
    assert name[|stem|] == '.';
    assert name[|stem| + 1..] == ext[1..];
    assert forall k :: |stem| < k < |name| ==> name[k] != '.' by {
      forall k | |stem| < k < |name| ensures name[k] != '.' {
        assert name[k] == ext[1..][k - |stem| - 1];
      }
    }
    LastIndexOfAt(name, '.', |stem|);
    assert name[|stem|..] == ext;
  }

  /** `extractExtension`: `rfind`, then the suffix lower-cased in place. */
  method ExtractExtension(filename: seq<char>) returns (ext: seq<char>)
    ensures ext == ExtensionOf(filename)
  {
    var dot := LastIndexOf(filename, '.');
    if dot.None? || dot.value == 0 {
      return [];
    }
    var suffix := filename[dot.value..];
    ext := suffix;
    for i := 0 to |ext|
      invariant |ext| == |suffix|
      invariant forall k :: 0 <= k < i ==> ext[k] == LowerChar(suffix[k])
      invariant forall k :: i <= k < |ext| ==> ext[k] == suffix[k]
    {
      ext := ext[i := LowerChar(ext[i])];
    }
    assert ext == Lower(suffix);
  }

  // ---------------------------------------------------------------------------
  // findParser
  // ---------------------------------------------------------------------------

  /** The first parser that lists the extension and accepts the content. */
  function ByExtension(parsers: seq<Parser>, content: seq<char>, ext: seq<char>): (r: Option<Parser>)
    ensures r.Some? ==> r.value in parsers && ext in ParserExtensions(r.value) && ParserCanParse(r.value, content)
    ensures r.None? <==> forall p :: p in parsers ==> ext !in ParserExtensions(p) || !ParserCanParse(p, content)
  {
    if parsers == [] then None
    else if ext in ParserExtensions(parsers[0]) && ParserCanParse(parsers[0], content) then Some(parsers[0])
    else
      var r := ByExtension(parsers[1..], content, ext);
      assert parsers == [parsers[0]] + parsers[1..];
      r
  }

  /** The first parser that accepts the content. */
  function ByContent(parsers: seq<Parser>, content: seq<char>): (r: Option<Parser>)
    ensures r.Some? ==> r.value in parsers && ParserCanParse(r.value, content)
    ensures r.None? <==> forall p :: p in parsers ==> !ParserCanParse(p, content)
  {
    if parsers == [] then None
    else if ParserCanParse(parsers[0], content) then Some(parsers[0])
    else
      var r := ByContent(parsers[1..], content);
      assert parsers == [parsers[0]] + parsers[1..];
      r
  }

  /** The parser `findParser` selects: one matching the extension first,
      any that accepts the content next, else the error. The selected
      parser always accepts the content, and there is one exactly when some
      registered parser accepts it. */
  function Selected(parsers: seq<Parser>, content: seq<char>, ext: seq<char>): (r: Result<Parser>)
    ensures r.Ok? ==> r.value in parsers && ParserCanParse(r.value, content)
    ensures r.Ok? <==> exists p :: p in parsers && ParserCanParse(p, content)
    ensures r.Err? ==> r.error == NoParser
    ensures ByExtension(parsers, content, ext).Some? ==> r == Ok(ByExtension(parsers, content, ext).value)
  {
    match ByExtension(parsers, content, ext)
    case Some(p) => Ok(p)
    case None =>
      match ByContent(parsers, content)
      case Some(p) => Ok(p)
      case None => Err(NoParser)
  }

  /** With the one registered parser, the file name never changes the
      choice: the A5:ER parser is selected exactly when it accepts the
      content. */
  lemma SelectedIgnoresName(content: seq<char>, ext: seq<char>)
    ensures Selected([A5er], content, ext) == if CanParse(content) then Ok(A5er) else Err(NoParser)
  {
    if CanParse(content) {
      assert ParserCanParse(A5er, content);
    }
  }

  class ErDiagramParserFactory {
    var parsers: seq<Parser>

    /** The factory starts with the A5:ER parser registered. */
    constructor()
      ensures parsers == [A5er]
    {
      parsers := [A5er];
    }

    /** `findParser`: the two loops with early return. */
    method FindParser(content: seq<char>, filename: seq<char>) returns (r: Result<Parser>)
      ensures r == Selected(parsers, content, ExtensionOf(filename))
    {
      var ext := ExtractExtension(filename);
      for i := 0 to |parsers|
        invariant ByExtension(parsers, content, ext) == ByExtension(parsers[i..], content, ext)
      {
        var p := parsers[i];
        var exts := ParserExtensions(p);
        for j := 0 to |exts|
          invariant ext !in exts[..j] || !ParserCanParse(p, content)
        {
          if exts[j] == ext && ParserCanParse(p, content) {
            return Ok(p);
          }
          assert exts[..j + 1] == exts[..j] + [exts[j]];
        }
        assert exts[..|exts|] == exts;
        assert parsers[i..][1..] == parsers[i + 1..];
      }
      for i := 0 to |parsers|
        invariant ByContent(parsers, content) == ByContent(parsers[i..], content)
      {
        if ParserCanParse(parsers[i], content) {
          return Ok(parsers[i]);
        }
        assert parsers[i..][1..] == parsers[i + 1..];
      }
      return Err(NoParser);
    }

    /** `parse`: the selected parser's model, or the selection error. */
    method Parse(content: seq<char>, filename: seq<char>, parseXml: seq<char> -> Model) returns (r: Result<Model>)
      ensures r.Err? <==> Selected(parsers, content, ExtensionOf(filename)).Err?
      ensures r.Err? ==> r.error == NoParser
      ensures r.Ok? ==> r.value == ParserParse(Selected(parsers, content, ExtensionOf(filename)).value, content, parseXml)
    {
      var parser := FindParser(content, filename);
      if parser.Err? {
        return Err(parser.error);
      }
      return Ok(ParserParse(parser.value, content, parseXml));
    }

    /** `generateDDL`: the DDL the selected parser writes for its own model. */
    method GenerateDdl(content: seq<char>, filename: seq<char>, target: TargetDatabase, parseXml: seq<char> -> Model)
      returns (r: Result<seq<char>>)
      ensures r.Err? <==> Selected(parsers, content, ExtensionOf(filename)).Err?
      ensures r.Err? ==> r.error == NoParser
      ensures r.Ok? ==> (
        var p := Selected(parsers, content, ExtensionOf(filename)).value;
        r.value == ParserDdl(p, ParserParse(p, content, parseXml), target))
    {
      var parser := FindParser(content, filename);
      if parser.Err? {
        return Err(parser.error);
      }
      var model := ParserParse(parser.value, content, parseXml);
      return Ok(ParserDdl(parser.value, model, target));
    }

    /** `parseWithDDL`: one selection; the model and the DDL written for
        that very model, both by the selected parser. */
    method ParseWithDdl(content: seq<char>, filename: seq<char>, target: TargetDatabase, parseXml: seq<char> -> Model)
      returns (r: Result<(Model, seq<char>)>)
      ensures r.Err? <==> Selected(parsers, content, ExtensionOf(filename)).Err?
      ensures r.Err? ==> r.error == NoParser
      ensures r.Ok? ==> (
        var p := Selected(parsers, content, ExtensionOf(filename)).value;
        r.value.0 == ParserParse(p, content, parseXml) && r.value.1 == ParserDdl(p, r.value.0, target))
    {
      var parser := FindParser(content, filename);
      if parser.Err? {
        return Err(parser.error);
      }
      var model := ParserParse(parser.value, content, parseXml);
      var ddl := ParserDdl(parser.value, model, target);
      return Ok((model, ddl));
    }
  }
}
