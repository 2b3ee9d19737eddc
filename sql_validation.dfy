/** SQL Server identifier handling: validating user-supplied table and column
    names, quoting them as `[bracket]` identifiers (with `]` written `]]`),
    reading bracket-quoted multi-part names back, splitting `schema.table`,
    and escaping text for string literals and LIKE patterns.

    Identifiers are sequences of UTF-16 code units (`wchar_t`); the Win32
    letter/digit classification is the parameter `alnum`. */
module SqlValidation {
  import opened Wrappers
  import opened Strings

  /** `sysname` is NVARCHAR(128). */
  const MaxIdentifierLength: nat := 128

  const DefaultSchema: seq<char> := "dbo"

  // ---------------------------------------------------------------------------
  // Per-character escape tables
  // ---------------------------------------------------------------------------

  function CloseBracketEscape(c: char): seq<char> { if c == ']' then "]]" else [c] }

  function QuoteEscape(c: char): seq<char> { if c == '\'' then "''" else [c] }

  function LikeEscape(c: char): seq<char> {
    if c == '%' then "[%]" else if c == '_' then "[_]" else if c == '[' then "[[]" else [c]
  }

  // ---------------------------------------------------------------------------
  // Single parts
  // ---------------------------------------------------------------------------

  /** `detail::quoteSinglePart` */
  function QuotePart(part: seq<char>): seq<char> {
    if part == [] then [] else "[" + MapConcat(part, CloseBracketEscape) + "]"
  }

  predicate IsBracketed(part: seq<char>) {
    part != [] && part[0] == '[' && part[|part| - 1] == ']'
  }

  /** `detail::unquoteSinglePart` */
  function UnquotePart(part: seq<char>): seq<char> {
    if IsBracketed(part) then UndoubledRange(part, ']', 1, |part| - 1) else part
  }

  lemma QuotePartRoundTrip(part: seq<char>)
    ensures UnquotePart(QuotePart(part)) == part
    ensures part != [] ==> IsBracketed(QuotePart(part))
    ensures part != [] ==> |QuotePart(part)| == |part| + CountChar(part, ']') + 2
  {
    if part != [] {
      var e := MapConcat(part, CloseBracketEscape);
      assert DoublesOnly(CloseBracketEscape, ']');
      UndoubleDoubled(part, ']', CloseBracketEscape);
      var q := "[" + e + "]";
      assert q[1..|q| - 1] == e;
      UndoubledRangeSlice(q, ']', 1, |q| - 1);
    }
  }

  method QuoteSinglePart(part: seq<char>) returns (s: seq<char>)
    ensures s == QuotePart(part)
    ensures UnquotePart(s) == part
    ensures part == [] <==> s == []
    ensures part != [] ==> IsBracketed(s) && |s| == |part| + CountChar(part, ']') + 2
  {
    QuotePartRoundTrip(part);
    if part == [] {
      return [];
    }
    s := "[";
    var i := 0;
    while i < |part|
      invariant 0 <= i <= |part|
      invariant s == "[" + MapConcat(part[..i], CloseBracketEscape)
    {
      MapConcatStep(part, i, CloseBracketEscape);
      if part[i] == ']' {
        s := s + "]]";
      } else {
        s := s + [part[i]];
      }
      i := i + 1;
    }
    assert part[..i] == part;
    s := s + "]";
  }

  method UnquoteSinglePart(part: seq<char>) returns (s: seq<char>)
    ensures s == UnquotePart(part)
    ensures |s| <= |part|
    ensures !IsBracketed(part) ==> s == part
  {
    if |part| == 0 || part[0] != '[' || part[|part| - 1] != ']' {
      return part;
    }
    var inner := part[1..|part| - 1];
    s := [];
    var i := 0;
    while i < |inner|
      invariant 0 <= i <= |inner|
      invariant |s| <= i
      invariant s + UndoubledRange(inner, ']', i, |inner|) == UndoubledRange(inner, ']', 0, |inner|)
    {
      ghost var s0, i0 := s, i;
      s := s + [inner[i]];
      if inner[i] == ']' && i + 1 < |inner| && inner[i + 1] == ']' {
        i := i + 1;
      }
      i := i + 1;
      assert UndoubledRange(inner, ']', i0, |inner|) == [inner[i0]] + UndoubledRange(inner, ']', i, |inner|);
      AppendAssoc(s0, [inner[i0]], UndoubledRange(inner, ']', i, |inner|));
    }
    UndoubledRangeSlice(inner, ']', 0, |inner|);
    UndoubledRangeSlice(part, ']', 1, |part| - 1);
    assert inner[0..|inner|] == inner;
  }

  // ---------------------------------------------------------------------------
  // Validation
  // ---------------------------------------------------------------------------

  /** Whether the rest of `w`, from position `i`, is accepted when the scan
      is inside a bracket or not and has or has not seen bracket content. */
  function ValidFrom(w: seq<char>, i: nat, inside: bool, hasContent: bool, alnum: char -> bool): bool
    requires i <= |w|
    decreases |w| - i
  {
    if i == |w| then !inside
    else if inside then
      if w[i] == ']' then
        if i + 1 < |w| && w[i + 1] == ']' then ValidFrom(w, i + 2, true, true, alnum)
        else if !hasContent then false
        else ValidFrom(w, i + 1, false, false, alnum)
      else ValidFrom(w, i + 1, true, true, alnum)
    else if w[i] == '[' then ValidFrom(w, i + 1, true, hasContent, alnum)
    else if w[i] != '_' && w[i] != '.' && !alnum(w[i]) then false
    else ValidFrom(w, i + 1, false, hasContent, alnum)
  }

  predicate ValidIdentifier(w: seq<char>, alnum: char -> bool) {
    w != [] && |w| <= MaxIdentifierLength && ValidFrom(w, 0, false, false, alnum)
  }

  /** `isValidIdentifier` */
  method IsValidIdentifier(name: seq<char>, alnum: char -> bool) returns (ok: bool)
    ensures ok == ValidIdentifier(name, alnum)
    ensures ok ==> 0 < |name| <= MaxIdentifierLength
  {
    if |name| == 0 {
      return false;
    }
    if |name| > MaxIdentifierLength {
      return false;
    }
    var insideBracket := false;
    var bracketHasContent := false;
    var i := 0;
    while i < |name|
      invariant 0 <= i <= |name|
      invariant ValidFrom(name, i, insideBracket, bracketHasContent, alnum)
             == ValidFrom(name, 0, false, false, alnum)
    {
      var ch := name[i];
      if insideBracket {
        if ch == ']' {
          if i + 1 < |name| && name[i + 1] == ']' {
            i := i + 1;
            bracketHasContent := true;
          } else {
            if !bracketHasContent {
              return false;
            }
            insideBracket := false;
            bracketHasContent := false;
          }
        } else {
          bracketHasContent := true;
        }
      } else if ch == '[' {
        insideBracket := true;
      } else if ch != '_' && ch != '.' && !alnum(ch) {
        return false;
      }
      i := i + 1;
    }
    return !insideBracket;
  }

  /** A character accepted outside brackets that does not open one. */
  predicate PlainChar(c: char, alnum: char -> bool) {
    c != '[' && (c == '_' || c == '.' || alnum(c))
  }

  /** Plain characters are consumed one by one outside brackets. */
  lemma {:induction false} PlainRun(w: seq<char>, i: nat, k: nat, alnum: char -> bool)
    requires i <= k <= |w|
    requires forall j :: i <= j < k ==> PlainChar(w[j], alnum)
    ensures ValidFrom(w, i, false, false, alnum) == ValidFrom(w, k, false, false, alnum)
    decreases k - i
  {
    if i < k {
      PlainRun(w, i + 1, k, alnum);
    }
  }

  /** Names made only of letters, digits, `_` and `.` are valid when they are
      1 to 128 units long. */
  lemma PlainIdentifierValid(w: seq<char>, alnum: char -> bool)
    requires 0 < |w| <= MaxIdentifierLength
    requires forall j :: 0 <= j < |w| ==> PlainChar(w[j], alnum)
    ensures ValidIdentifier(w, alnum)
  {
    PlainRun(w, 0, |w|, alnum);
  }

  /** A character outside brackets other than `[`, `_`, `.` or a letter or
      digit makes the name invalid (`;`, quotes, spaces, newlines). */
  lemma DisallowedCharRejected(w: seq<char>, k: nat, alnum: char -> bool)
    requires k < |w|
    requires forall j :: 0 <= j < k ==> PlainChar(w[j], alnum)
    requires w[k] != '[' && w[k] != '_' && w[k] != '.' && !alnum(w[k])
    ensures !ValidIdentifier(w, alnum)
  {
    PlainRun(w, 0, k, alnum);
  }

  /** An empty bracket pair `[]` (not the start of an escaped `]]`) makes the
      name invalid. */
  lemma EmptyBracketRejected(w: seq<char>, k: nat, alnum: char -> bool)
    requires k + 2 <= |w| && w[k] == '[' && w[k + 1] == ']'
    requires k + 2 == |w| || w[k + 2] != ']'
    requires forall j :: 0 <= j < k ==> PlainChar(w[j], alnum)
    ensures !ValidIdentifier(w, alnum)
  {
    PlainRun(w, 0, k, alnum);
  }

  lemma {:induction false} NeverClosed(w: seq<char>, i: nat, hasContent: bool, alnum: char -> bool)
    requires i <= |w|
    requires forall j :: i <= j < |w| ==> w[j] != ']'
    ensures !ValidFrom(w, i, true, hasContent, alnum)
    decreases |w| - i
  {
    if i < |w| {
      NeverClosed(w, i + 1, true, alnum);
    }
  }

  /** A bracket that is never closed makes the name invalid. */
  lemma UnclosedBracketRejected(w: seq<char>, k: nat, alnum: char -> bool)
    requires k < |w| && w[k] == '['
    requires forall j :: 0 <= j < k ==> PlainChar(w[j], alnum)
    requires forall j :: k < j < |w| ==> w[j] != ']'
    ensures !ValidIdentifier(w, alnum)
  {
    PlainRun(w, 0, k, alnum);
    NeverClosed(w, k + 1, false, alnum);
  }

  // ---------------------------------------------------------------------------
  // Multi-part identifiers
  // ---------------------------------------------------------------------------

  function QuoteParts(parts: seq<seq<char>>): seq<seq<char>> {
    seq(|parts|, k requires 0 <= k < |parts| => QuotePart(parts[k]))
  }

  /** `quoteBracketIdentifier`: every `.`-separated part quoted, empty parts
      left empty. */
  function QuoteIdentifier(identifier: seq<char>): seq<char> {
    if identifier == [] then [] else Join(QuoteParts(SplitOn(identifier, '.')), ".")
  }

  /** Where the part starting at `i` ends: the first `.` met outside brackets
      when scanning from `i` in the given bracket state, or the end. */
  function PartEnd(id: seq<char>, i: nat, inside: bool): (e: nat)
    requires i <= |id|
    ensures i <= e <= |id|
    ensures e < |id| ==> id[e] == '.'
    decreases |id| - i
  {
    if i == |id| then |id|
    else if inside then
      if id[i] == ']' then
        if i + 1 < |id| && id[i + 1] == ']' then PartEnd(id, i + 2, true)
        else PartEnd(id, i + 1, false)
      else PartEnd(id, i + 1, true)
    else if id[i] == '[' then PartEnd(id, i + 1, true)
    else if id[i] == '.' then i
    else PartEnd(id, i + 1, false)
  }

  /** One step of the reassembly: a `.` only after a non-empty result. */
  function AppendPart(result: seq<char>, piece: seq<char>): seq<char> {
    (if result != [] then result + "." else result) + piece
  }

  function AppendParts(result: seq<char>, pieces: seq<seq<char>>): seq<char>
    decreases |pieces|
  {
    if pieces == [] then result else AppendParts(AppendPart(result, pieces[0]), pieces[1..])
  }

  /** Appending a first piece and then the rest. */
  lemma AppendPartsCons(result: seq<char>, piece: seq<char>, rest: seq<seq<char>>)
    ensures AppendParts(result, [piece] + rest) == AppendParts(AppendPart(result, piece), rest)
  {
    assert ([piece] + rest)[1..] == rest;
  }

  /** The parts from the one that starts at `start` on, each ended by the
      first dot outside brackets or by the end of the text, and unquoted. */
  function UnquotedParts(id: seq<char>, start: nat): (ps: seq<seq<char>>)
    requires start <= |id|
    ensures ps != []
    decreases |id| - start
  {
    var e := PartEnd(id, start, false);
    [UnquotePart(id[start..e])] + if e == |id| then [] else UnquotedParts(id, e + 1)
  }

  /** At a dot outside brackets the part that started at `start` is done. */
  lemma UnquotedPartsDot(id: seq<char>, start: nat, i: nat)
    requires start <= i < |id| && PartEnd(id, start, false) == i
    ensures UnquotedParts(id, start) == [UnquotePart(id[start..i])] + UnquotedParts(id, i + 1)
  {
  }

  /** At the end of the text the part that started at `start` is the last. */
  lemma UnquotedPartsEnd(id: seq<char>, start: nat)
    requires start <= |id| && PartEnd(id, start, false) == |id|
    ensures UnquotedParts(id, start) == [UnquotePart(id[start..])]
  {
    assert id[start..|id|] == id[start..];
  }

  /** `unquoteBracketIdentifier`: the unquoted parts joined again, a `.`
      written only after a non-empty result. */
  function UnquoteIdentifier(id: seq<char>): seq<char> {
    AppendParts([], UnquotedParts(id, 0))
  }

  /** Appending one unquoted part, after a `.` when something precedes it. */
  method AppendUnquoted(result: seq<char>, part: seq<char>) returns (r: seq<char>)
    ensures r == AppendPart(result, UnquotePart(part))
  {
    var piece := UnquoteSinglePart(part);
    r := result;
    if r != [] {
      r := r + ".";
    }
    r := r + piece;
  }

  /** One character of the scan in `unquoteBracketIdentifier`: it keeps the
      end of the current part and the reassembly still to come. */
  method ScanCharacter(identifier: seq<char>, i: nat, insideBracket: bool, partStart: nat, result: seq<char>)
    returns (i': nat, insideBracket': bool, partStart': nat, result': seq<char>)
    requires partStart <= i < |identifier|
    requires PartEnd(identifier, i, insideBracket) == PartEnd(identifier, partStart, false)
    ensures partStart' <= i' <= |identifier| && i < i'
    ensures PartEnd(identifier, i', insideBracket') == PartEnd(identifier, partStart', false)
    ensures AppendParts(result', UnquotedParts(identifier, partStart'))
         == AppendParts(result, UnquotedParts(identifier, partStart))
  {
    i', insideBracket', partStart', result' := i, insideBracket, partStart, result;
    var ch := identifier[i];
    if insideBracket {
      if ch == ']' {
        if i + 1 < |identifier| && identifier[i + 1] == ']' {
          i' := i + 1;
        } else {
          insideBracket' := false;
        }
      }
    } else if ch == '[' {
      insideBracket' := true;
    } else if ch == '.' {
      result' := AppendUnquoted(result, identifier[partStart..i]);
      UnquotedPartsDot(identifier, partStart, i);
      AppendPartsCons(result, UnquotePart(identifier[partStart..i]), UnquotedParts(identifier, i + 1));
      partStart' := i + 1;
    }
    i' := i' + 1;
  }

  method UnquoteBracketIdentifier(identifier: seq<char>) returns (result: seq<char>)
    ensures result == UnquoteIdentifier(identifier)
  {
    result := [];
    var partStart := 0;
    var insideBracket := false;
    var i := 0;
    while i < |identifier|
      invariant 0 <= partStart <= i <= |identifier|
      invariant PartEnd(identifier, i, insideBracket) == PartEnd(identifier, partStart, false)
      invariant AppendParts(result, UnquotedParts(identifier, partStart)) == UnquoteIdentifier(identifier)
    {
      i, insideBracket, partStart, result := ScanCharacter(identifier, i, insideBracket, partStart, result);
    }
    UnquotedPartsEnd(identifier, partStart);
    AppendPartsCons(result, UnquotePart(identifier[partStart..]), []);
    result := AppendUnquoted(result, identifier[partStart..]);
  }

  lemma QuotePartsSnoc(parts: seq<seq<char>>, k: nat)
    requires k < |parts|
    ensures QuoteParts(parts[..k + 1]) == QuoteParts(parts[..k]) + [QuotePart(parts[k])]
  {
  }

  method QuoteBracketIdentifier(identifier: seq<char>) returns (result: seq<char>)
    ensures result == QuoteIdentifier(identifier)
  {
    if identifier == [] {
      return [];
    }
    var parts := SplitOn(identifier, '.');
    result := [];
    var first := true;
    var k := 0;
    while k < |parts|
      invariant 0 <= k <= |parts|
      invariant first <==> k == 0
      invariant result == Join(QuoteParts(parts[..k]), ".")
    {
      if !first {
        result := result + ".";
      }
      first := false;
      var quoted := QuoteSinglePart(parts[k]);
      QuotePartsSnoc(parts, k);
      if k > 0 {
        JoinSnoc(QuoteParts(parts[..k]), quoted, ".");
      }
      result := result + quoted;
      k := k + 1;
    }
    assert parts[..k] == parts;
  }

  // ---------------------------------------------------------------------------
  // Round trip
  // ---------------------------------------------------------------------------

  /** Scanning an escaped part body inside a bracket ends exactly at its end,
      whatever follows, and records content iff the body is non-empty. */
  lemma {:induction false} EscapedScan(w: seq<char>, i: nat, p: seq<char>, hasContent: bool, alnum: char -> bool)
    requires i + |MapConcat(p, CloseBracketEscape)| <= |w|
    requires w[i..i + |MapConcat(p, CloseBracketEscape)|] == MapConcat(p, CloseBracketEscape)
    ensures PartEnd(w, i, true) == PartEnd(w, i + |MapConcat(p, CloseBracketEscape)|, true)
    ensures ValidFrom(w, i, true, hasContent, alnum)
         == ValidFrom(w, i + |MapConcat(p, CloseBracketEscape)|, true, hasContent || p != [], alnum)
    decreases |p|
  {
    if p != [] {
      var t := p[1..];
      MapConcatCons(p[0], t, CloseBracketEscape);
      assert p == [p[0]] + t;
      var head := CloseBracketEscape(p[0]);
      var e := MapConcat(t, CloseBracketEscape);
      var n := |head|;
      assert w[i..i + n + |e|] == head + e;
      assert w[i + n..i + n + |e|] == e by {
        assert w[i + n..i + n + |e|] == w[i..i + n + |e|][n..];
      }
      if p[0] == ']' {
        assert w[i] == ']' && w[i + 1] == ']' by {
          assert w[i] == w[i..i + n + |e|][0] && w[i + 1] == w[i..i + n + |e|][1];
        }
      } else {
        assert w[i] == p[0] by {
          assert w[i] == w[i..i + n + |e|][0];
        }
      }
      EscapedScan(w, i + n, t, true, alnum);
    }
  }

  /** A quoted part followed by a `.` or by the end is one top-level part, and
      it is accepted by the validator. */
  lemma QuotedPartScan(w: seq<char>, i: nat, p: seq<char>, alnum: char -> bool)
    requires i + |QuotePart(p)| <= |w|
    requires w[i..i + |QuotePart(p)|] == QuotePart(p)
    requires i + |QuotePart(p)| == |w| || w[i + |QuotePart(p)|] == '.'
    ensures PartEnd(w, i, false) == i + |QuotePart(p)|
    ensures ValidFrom(w, i, false, false, alnum) == ValidFrom(w, i + |QuotePart(p)|, false, false, alnum)
  {
    if p != [] {
      var e := MapConcat(p, CloseBracketEscape);
      var q := QuotePart(p);
      assert q == "[" + e + "]";
      var j := i + 1 + |e|;
      assert w[i] == '[' by { assert w[i] == w[i..i + |q|][0]; }
      assert w[j] == ']' by { assert w[j] == w[i..i + |q|][|q| - 1]; }
      assert |q| == |e| + 2;
      assert w[i + 1..j] == e by {
        SliceOfSlice(w, i, i + |q|, 1, |q| - 1);
        assert q[1..|q| - 1] == e;
      }
      EscapedScan(w, i + 1, p, false, alnum);
    }
  }

  lemma JoinQuotedTail(ps: seq<seq<char>>)
    requires |ps| > 1
    ensures Join(QuoteParts(ps), ".") == QuotePart(ps[0]) + "." + Join(QuoteParts(ps[1..]), ".")
  {
    assert QuoteParts(ps)[1..] == QuoteParts(ps[1..]);
  }

  lemma SliceAtDot(w: seq<char>, i: nat, q: seq<char>, rest: seq<char>)
    requires i <= |w| && w[i..] == q + "." + rest
    ensures i + |q| < |w|
    ensures w[i..i + |q|] == q && w[i + |q|] == '.' && w[i + |q| + 1..] == rest
  {
    assert w[i..i + |q|] == w[i..][..|q|];
    assert w[i + |q|] == w[i..][|q|];
    assert w[i + |q| + 1..] == w[i..][|q| + 1..];
  }

  /** Where the first quoted part of a dotted list ends: at the end of the
      text, or at the dot before the rest of the list. */
  lemma QuotedHead(w: seq<char>, i: nat, ps: seq<seq<char>>)
    requires ps != [] && i <= |w|
    requires w[i..] == Join(QuoteParts(ps), ".")
    ensures i + |QuotePart(ps[0])| <= |w|
    ensures w[i..i + |QuotePart(ps[0])|] == QuotePart(ps[0])
    ensures |ps| == 1 ==> i + |QuotePart(ps[0])| == |w|
    ensures |ps| > 1 ==> i + |QuotePart(ps[0])| < |w| && w[i + |QuotePart(ps[0])|] == '.'
    ensures |ps| > 1 ==> w[i + |QuotePart(ps[0])| + 1..] == Join(QuoteParts(ps[1..]), ".")
  {
    var q := QuotePart(ps[0]);
    if |ps| == 1 {
      assert w[i..] == q;
      assert w[i..i + |q|] == w[i..];
    } else {
      JoinQuotedTail(ps);
      SliceAtDot(w, i, q, Join(QuoteParts(ps[1..]), "."));
    }
  }

  /** The first part of a dotted list of quoted parts: where it ends and
      what it unquotes to. */
  lemma QuotedFirst(w: seq<char>, i: nat, ps: seq<seq<char>>) returns (e: nat)
    requires ps != [] && i <= |w|
    requires w[i..] == Join(QuoteParts(ps), ".")
    ensures i <= e <= |w| && PartEnd(w, i, false) == e
    ensures UnquotePart(w[i..e]) == ps[0]
    ensures |ps| == 1 ==> e == |w|
    ensures |ps| > 1 ==> e < |w| && w[e + 1..] == Join(QuoteParts(ps[1..]), ".")
  {
    var q := QuotePart(ps[0]);
    e := i + |q|;
    QuotedHead(w, i, ps);
    QuotedPartScan(w, i, ps[0], c => false);
    QuotePartRoundTrip(ps[0]);
    assert w[i..e] == q;
  }

  lemma PartsEndStep(w: seq<char>, i: nat, ps: seq<seq<char>>)
    requires |ps| == 1 && i <= |w| && PartEnd(w, i, false) == |w| && UnquotePart(w[i..|w|]) == ps[0]
    ensures UnquotedParts(w, i) == ps
  {
    UnquotedPartsEnd(w, i);
    assert w[i..] == w[i..|w|];
  }

  lemma PartsDotStep(w: seq<char>, i: nat, e: nat, ps: seq<seq<char>>)
    requires |ps| > 1 && i <= e < |w| && PartEnd(w, i, false) == e && UnquotePart(w[i..e]) == ps[0]
    requires UnquotedParts(w, e + 1) == ps[1..]
    ensures UnquotedParts(w, i) == ps
  {
    UnquotedPartsDot(w, i, e);
    assert ps == [ps[0]] + ps[1..];
  }

  /** Joining quoted parts with dots gives text whose top-level parts
      unquote to exactly the original parts. */
  lemma {:induction false} QuotedJoinParts(w: seq<char>, i: nat, ps: seq<seq<char>>)
    requires ps != [] && i <= |w|
    requires w[i..] == Join(QuoteParts(ps), ".")
    ensures UnquotedParts(w, i) == ps
    decreases |ps|
  {
    var e := QuotedFirst(w, i, ps);
    if |ps| == 1 {
      PartsEndStep(w, i, ps);
    } else {
      var rest := ps[1..];
      QuotedJoinParts(w, e + 1, rest);
      PartsDotStep(w, i, e, ps);
    }
  }

  /** Joining quoted parts with dots gives text the validator accepts. */
  lemma {:induction false} QuotedJoinValid(w: seq<char>, i: nat, ps: seq<seq<char>>, alnum: char -> bool)
    requires ps != [] && i <= |w|
    requires w[i..] == Join(QuoteParts(ps), ".")
    ensures ValidFrom(w, i, false, false, alnum)
    decreases |ps|
  {
    var e := i + |QuotePart(ps[0])|;
    QuotedHead(w, i, ps);
    QuotedPartScan(w, i, ps[0], alnum);
    if |ps| > 1 {
      QuotedJoinValid(w, e + 1, ps[1..], alnum);
    }
  }

  /** After a non-empty result every piece is preceded by one `.`. */
  lemma {:induction false} AppendPartsNonEmpty(result: seq<char>, pieces: seq<seq<char>>)
    requires result != [] && pieces != []
    ensures AppendParts(result, pieces) == result + "." + Join(pieces, ".")
    decreases |pieces|
  {
    if |pieces| > 1 {
      AppendPartsNonEmpty(AppendPart(result, pieces[0]), pieces[1..]);
    }
  }

  /** Reassembly from an empty result drops the leading empty pieces. */
  lemma AppendPartsFirstNonEmpty(pieces: seq<seq<char>>)
    requires pieces != [] && pieces[0] != []
    ensures AppendParts([], pieces) == Join(pieces, ".")
  {
    assert AppendPart([], pieces[0]) == pieces[0];
    assert AppendParts([], pieces) == AppendParts(pieces[0], pieces[1..]);
    if |pieces| > 1 {
      AppendPartsNonEmpty(pieces[0], pieces[1..]);
    } else {
      assert pieces[1..] == [];
    }
  }

  /** Dots inside brackets are not separators: a dotted list of quoted parts,
      whatever they contain, reads back as the same parts joined by dots
      (the first part non-empty). */
  lemma UnquoteQuotedParts(ps: seq<seq<char>>)
    requires ps != [] && ps[0] != []
    ensures UnquoteIdentifier(Join(QuoteParts(ps), ".")) == Join(ps, ".")
  {
    var w := Join(QuoteParts(ps), ".");
    assert w[0..] == w;
    QuotedJoinParts(w, 0, ps);
    AppendPartsFirstNonEmpty(ps);
  }

  function StripLeadingDots(s: seq<char>): seq<char> {
    if s != [] && s[0] == '.' then StripLeadingDots(s[1..]) else s
  }

  lemma {:induction false} AppendPartsOfSplit(x: seq<char>)
    ensures AppendParts([], SplitOn(x, '.')) == StripLeadingDots(x)
  {
    if x != [] {
      var ps := SplitOn(x, '.');
      if x[0] == '.' {
        assert ps == [[]] + SplitOn(x[1..], '.');
        assert ps[1..] == SplitOn(x[1..], '.');
        AppendPartsOfSplit(x[1..]);
      } else {
        assert ps[0] != [] && ps[0][0] == x[0];
        AppendPartsFirstNonEmpty(ps);
        SplitOnJoin(x, '.');
      }
    }
  }

  /** The precise round trip: quoting and unquoting gives back the
      identifier without its leading dots. */
  lemma QuoteUnquote(x: seq<char>)
    ensures UnquoteIdentifier(QuoteIdentifier(x)) == StripLeadingDots(x)
  {
    if x == [] {
      UnquotedPartsEnd([], 0);
    } else {
      var ps := SplitOn(x, '.');
      var w := QuoteIdentifier(x);
      assert w[0..] == w;
      QuotedJoinParts(w, 0, ps);
      AppendPartsOfSplit(x);
    }
  }

  /** The inverse pair of quoting and unquoting, for every identifier that does
      not start with a dot. */
  lemma QuoteRoundTrip(x: seq<char>)
    requires x == [] || x[0] != '.'
    ensures UnquoteIdentifier(QuoteIdentifier(x)) == x
  {
    QuoteUnquote(x);
  }

  /** A leading empty part is lost: `.a` quotes to `.[a]`, which reads back
      as `a`. */
  lemma LeadingDotLost()
    ensures UnquoteIdentifier(QuoteIdentifier(".a")) == "a"
  {
    QuoteUnquote(".a");
    assert StripLeadingDots(".a") == StripLeadingDots("a");
  }

  /** Quoting any non-empty name that fits the length limit yields a valid
      identifier. */
  lemma QuotedIdentifierValid(x: seq<char>, alnum: char -> bool)
    requires x != [] && |QuoteIdentifier(x)| <= MaxIdentifierLength
    ensures ValidIdentifier(QuoteIdentifier(x), alnum)
  {
    var w := QuoteIdentifier(x);
    assert w[0..] == w;
    QuotedJoinValid(w, 0, SplitOn(x, '.'), alnum);
  }

  /** A name without dots whose brackets do not enclose it whole is returned
      unchanged (`[noclose`, `noopen]`, `Users`). */
  lemma NoDotUnquoteUnchanged(id: seq<char>)
    requires '.' !in id && !IsBracketed(id)
    ensures UnquoteIdentifier(id) == id
  {
    var e := PartEnd(id, 0, false);
    UnquotedPartsEnd(id, 0);
    assert id[0..] == id;
  }

  // ---------------------------------------------------------------------------
  // schema.table
  // ---------------------------------------------------------------------------

  datatype SplitIdentifier = SplitIdentifier(schema: seq<char>, name: seq<char>)

  /** `splitSchemaTable`: the unquoted text split at its first dot, or the
      default schema and the whole text. */
  function SplitSchemaTable(identifier: seq<char>, defaultSchema: seq<char>): (r: SplitIdentifier)
    ensures var u := UnquoteIdentifier(identifier);
      if '.' in u then r.schema + "." + r.name == u && '.' !in r.schema
      else r.schema == defaultSchema && r.name == u
  {
    var unquoted := UnquoteIdentifier(identifier);
    match IndexOf(unquoted, '.')
    case Some(dotPos) =>
      assert unquoted == unquoted[..dotPos] + "." + unquoted[dotPos + 1..];
      SplitIdentifier(unquoted[..dotPos], unquoted[dotPos + 1..])
    case None => SplitIdentifier(defaultSchema, unquoted)
  }

  /** A quoted `schema.table` splits back into its schema and table, even
      when the table name holds dots or brackets. */
  lemma SplitQuotedSchemaTable(schema: seq<char>, table: seq<char>, defaultSchema: seq<char>)
    requires schema != [] && '.' !in schema
    ensures SplitSchemaTable(QuoteIdentifier(schema + "." + table), defaultSchema)
         == SplitIdentifier(schema, table)
  {
    var x := schema + "." + table;
    QuoteRoundTrip(x);
    var r := SplitSchemaTable(QuoteIdentifier(x), defaultSchema);
    assert x[|schema|] == '.';
    assert '.' in x;
    var k := |r.schema|;
    assert x == r.schema + "." + r.name;
    assert r.schema == x[..k] == schema;
    assert r.name == x[k + 1..] == table;
  }

  /** A quoted single name lands in the default schema. */
  lemma SplitQuotedTableOnly(table: seq<char>, defaultSchema: seq<char>)
    requires table != [] && '.' !in table
    ensures SplitSchemaTable(QuoteIdentifier(table), defaultSchema)
         == SplitIdentifier(defaultSchema, table)
  {
    QuoteRoundTrip(table);
  }

  // ---------------------------------------------------------------------------
  // Literal and LIKE escaping
  // ---------------------------------------------------------------------------

  /** `escapeSqlString`: every `'` doubled, nothing else changed. */
  method EscapeSqlString(value: seq<char>) returns (result: seq<char>)
    ensures result == MapConcat(value, QuoteEscape)
    ensures |result| == |value| + CountChar(value, '\'')
    ensures Undoubled(result, '\'') == value
    ensures '\'' !in value ==> result == value
  {
    result := [];
    var i := 0;
    while i < |value|
      invariant 0 <= i <= |value|
      invariant result == MapConcat(value[..i], QuoteEscape)
    {
      MapConcatStep(value, i, QuoteEscape);
      if value[i] == '\'' {
        result := result + "''";
      } else {
        result := result + [value[i]];
      }
      i := i + 1;
    }
    assert value[..i] == value;
    assert DoublesOnly(QuoteEscape, '\'');
    UndoubleDoubled(value, '\'', QuoteEscape);
    if '\'' !in value {
      MapConcatIdentity(value, QuoteEscape);
    }
  }

  /** How LIKE reads a pattern made of literal characters and one-character
      classes `[c]`. */
  function LikeLiteral(p: seq<char>): seq<char> {
    if p == [] then []
    else if p[0] == '[' && |p| >= 3 && p[2] == ']' then [p[1]] + LikeLiteral(p[3..])
    else [p[0]] + LikeLiteral(p[1..])
  }

  /** The escaped pattern matches exactly the original text. */
  lemma {:induction false} LikeEscapeRoundTrip(value: seq<char>)
    ensures LikeLiteral(MapConcat(value, LikeEscape)) == value
  {
    if value != [] {
      var t := value[1..];
      MapConcatCons(value[0], t, LikeEscape);
      assert value == [value[0]] + t;
      var rest := MapConcat(t, LikeEscape);
      LikeEscapeRoundTrip(t);
      var head := LikeEscape(value[0]);
      if value[0] == '%' || value[0] == '_' || value[0] == '[' {
        assert (head + rest)[3..] == rest;
      } else {
        assert (head + rest)[1..] == rest;
      }
    }
  }

  /** In the escaped pattern every `%` and `_` sits inside a one-character
      class, so it matches itself and is no wildcard. */
  predicate WildcardsBracketed(r: seq<char>) {
    forall k :: 0 <= k < |r| && (r[k] == '%' || r[k] == '_') ==>
      0 < k < |r| - 1 && r[k - 1] == '[' && r[k + 1] == ']'
  }

  lemma {:induction false} LikeEscapeNoWildcard(value: seq<char>)
    ensures WildcardsBracketed(MapConcat(value, LikeEscape))
  {
    if value != [] {
      var init := value[..|value| - 1];
      LikeEscapeNoWildcard(init);
      var r0 := MapConcat(init, LikeEscape);
      var r := MapConcat(value, LikeEscape);
      assert r == r0 + LikeEscape(value[|value| - 1]);
      forall k | 0 <= k < |r| && (r[k] == '%' || r[k] == '_')
        ensures 0 < k < |r| - 1 && r[k - 1] == '[' && r[k + 1] == ']'
      {
        var c := value[|value| - 1];
        if k < |r0| {
          assert r0[k] == r[k];
          assert r0[k] == '%' || r0[k] == '_';
          assert 0 < k < |r0| - 1;
          assert r0[k - 1] == r[k - 1] && r0[k + 1] == r[k + 1];
        } else {
          var tail := LikeEscape(c);
          var off := k - |r0|;
          assert r[k] == tail[off];
          if c == '%' || c == '_' {
            assert tail == ['[', c, ']'];
            assert r[k - 1] == tail[off - 1] && r[k + 1] == tail[off + 1];
          }
        }
      }
    }
  }

  /** `escapeLikePattern` */
  method EscapeLikePattern(value: seq<char>) returns (result: seq<char>)
    ensures result == MapConcat(value, LikeEscape)
    ensures LikeLiteral(result) == value
  {
    result := [];
    var i := 0;
    while i < |value|
      invariant 0 <= i <= |value|
      invariant result == MapConcat(value[..i], LikeEscape)
    {
      MapConcatStep(value, i, LikeEscape);
      match value[i] {
        case '%' => result := result + "[%]";
        case '_' => result := result + "[_]";
        case '[' => result := result + "[[]";
        case _ => result := result + [value[i]];
      }
      i := i + 1;
    }
    assert value[..i] == value;
    LikeEscapeRoundTrip(value);
  }
}
