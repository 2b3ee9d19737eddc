/** The light-weight SQL statement classifier of the backend
    (`SQLParser`): trimming, upper-casing, recognising `USE <database>`,
    classifying a statement by its leading keyword, deciding whether a
    statement is read-only, and splitting a batch at semicolons. */
module SqlParser {
  import opened Wrappers
  import opened Strings

  // ---------------------------------------------------------------------------
  // trim
  // ---------------------------------------------------------------------------

  /** First position at or after `i` that is not white space. */
  function SpaceEnd(t: seq<char>, i: nat): (e: nat)
    requires i <= |t|
    ensures i <= e <= |t|
    decreases |t| - i
  {
    if i < |t| && IsSpace(t[i]) then SpaceEnd(t, i + 1) else i
  }

  lemma {:induction false} SpaceEndSpec(t: seq<char>, i: nat)
    requires i <= |t|
    ensures forall k :: i <= k < SpaceEnd(t, i) ==> IsSpace(t[k])
    ensures SpaceEnd(t, i) < |t| ==> !IsSpace(t[SpaceEnd(t, i)])
    decreases |t| - i
  {
    if i < |t| && IsSpace(t[i]) {
      SpaceEndSpec(t, i + 1);
    }
  }

  /** Walking back from `j` (not below `lo`) over white space. */
  function SpaceStart(t: seq<char>, lo: nat, j: nat): (b: nat)
    requires lo <= j <= |t|
    ensures lo <= b <= j
    decreases j
  {
    if j > lo && IsSpace(t[j - 1]) then SpaceStart(t, lo, j - 1) else j
  }

  lemma {:induction false} SpaceStartSpec(t: seq<char>, lo: nat, j: nat)
    requires lo <= j <= |t|
    ensures forall k :: SpaceStart(t, lo, j) <= k < j ==> IsSpace(t[k])
    ensures SpaceStart(t, lo, j) > lo ==> !IsSpace(t[SpaceStart(t, lo, j) - 1])
    decreases j
  {
    if j > lo && IsSpace(t[j - 1]) {
      SpaceStartSpec(t, lo, j - 1);
    }
  }

  /** `SQLParser::trim`: the text without leading and trailing white space
      (the empty text when it is all white space). */
  function Trim(s: seq<char>): (r: seq<char>)
    ensures |r| <= |s|
    ensures r == [] || (!IsSpace(r[0]) && !IsSpace(r[|r| - 1]))
  {
    var a := SpaceEnd(s, 0);
    SpaceEndSpec(s, 0);
    SpaceStartSpec(s, a, |s|);
    s[a..SpaceStart(s, a, |s|)]
  }

  /** Trim is determined by its two cut points: cutting off white space only,
      and keeping a piece that starts and ends with non-space, gives exactly
      `Trim`. */
  lemma TrimUnique(s: seq<char>, a: nat, b: nat)
    requires a <= b <= |s|
    requires forall k :: 0 <= k < a ==> IsSpace(s[k])
    requires forall k :: b <= k < |s| ==> IsSpace(s[k])
    requires a == b || (!IsSpace(s[a]) && !IsSpace(s[b - 1]))
    ensures Trim(s) == s[a..b]
  {
    var a' := SpaceEnd(s, 0);
    SpaceEndSpec(s, 0);
    var b' := SpaceStart(s, a', |s|);
    SpaceStartSpec(s, a', |s|);
    if a < b {
      assert a' == a;
      assert b' == b;
    } else {
      assert a' == |s|;
    }
  }

  lemma TrimTrimmed(s: seq<char>)
    requires s == [] || (!IsSpace(s[0]) && !IsSpace(s[|s| - 1]))
    ensures Trim(s) == s
  {
    TrimUnique(s, 0, |s|);
  }

  lemma TrimIdempotent(s: seq<char>)
    ensures Trim(Trim(s)) == Trim(s)
  {
    TrimTrimmed(Trim(s));
  }

  /** Upper-casing never turns a character into white space or back. */
  lemma UpperKeepsSpaces(t: seq<char>)
    ensures forall k :: 0 <= k < |t| ==> (IsSpace(Upper(t)[k]) <==> IsSpace(t[k]))
  {
  }

  lemma TrimUpper(s: seq<char>)
    ensures Trim(Upper(s)) == Upper(Trim(s))
  {
    var a := SpaceEnd(s, 0);
    var b := SpaceStart(s, a, |s|);
    SpaceEndSpec(s, 0);
    SpaceStartSpec(s, a, |s|);
    UpperKeepsSpaces(s);
    TrimUnique(Upper(s), a, b);
    UpperSlice(s, a, b);
  }

  // ---------------------------------------------------------------------------
  // USE <database>
  // ---------------------------------------------------------------------------

  /** `\w` of the regular expression in the "C" locale. */
  predicate WordChar(c: char) {
    IsAsciiLetter(c) || IsDigit(c) || c == '_'
  }

  /** The three letters of `USE` in any case (the pattern is matched with
      `icase`). */
  predicate IsUseWord(w: seq<char>) {
    |w| >= 3 && UpperChar(w[0]) == 'U' && UpperChar(w[1]) == 'S' && UpperChar(w[2]) == 'E'
  }

  /** Where the captured group of a `USE` statement lies: it runs from
      `open` to `close`; its word characters run from `wordStart` to
      `wordEnd`, with an optional `[` before and `]` after them. */
  datatype UseSpan = UseSpan(open: nat, wordStart: nat, wordEnd: nat, close: nat)

  /** The states of a left-to-right reading of
      `\s+ \[? \w+ \]? \s* ;? \s*` after the keyword: before the first
      space, in the gap, just after `[`, inside the word, just after `]`,
      in the trailing spaces, and after `;`. */
  datatype UseState = NeedSpace | Gap | Opened | InWord | Closed | Trailing | Ended

  /** A well-formed group inside `t`. */
  predicate SpanOk(t: seq<char>, sp: UseSpan) {
    3 < sp.open <= sp.wordStart < sp.wordEnd <= sp.close <= |t| &&
    sp.wordStart <= sp.open + 1 && sp.close <= sp.wordEnd + 1 &&
    (t[sp.open] == '[' <==> sp.wordStart == sp.open + 1) &&
    (t[sp.close - 1] == ']' <==> sp.close == sp.wordEnd + 1) &&
    (forall k :: sp.wordStart <= k < sp.wordEnd ==> WordChar(t[k]))
  }

  /** What is known of the span recorded so far in each state at
      position `i`. */
  predicate StateOk(t: seq<char>, i: nat, st: UseState, sp: UseSpan) {
    match st
    case NeedSpace => i == 3
    case Gap => 3 < i
    case Opened =>
      3 < sp.open && sp.open + 1 == sp.wordStart == i <= |t| && t[sp.open] == '['
    case InWord =>
      3 < sp.open <= sp.wordStart < i <= |t| && sp.wordStart <= sp.open + 1 &&
      (t[sp.open] == '[' <==> sp.wordStart == sp.open + 1) &&
      (forall k :: sp.wordStart <= k < i ==> WordChar(t[k]))
    case Closed | Trailing | Ended => SpanOk(t, sp) && sp.close <= i
  }

  /** One character `c` at position `i` of the reading: the next state and
      span, or `None` where the pattern cannot go on. */
  function UseStep(c: char, i: nat, st: UseState, sp: UseSpan): Option<(UseState, UseSpan)> {
    match st
    case NeedSpace =>
      if IsSpace(c) then Some((Gap, sp)) else None
    case Gap =>
      if IsSpace(c) then Some((Gap, sp))
      else if c == '[' then Some((Opened, UseSpan(i, i + 1, 0, 0)))
      else if WordChar(c) then Some((InWord, UseSpan(i, i, 0, 0)))
      else None
    case Opened =>
      if WordChar(c) then Some((InWord, sp)) else None
    case InWord =>
      if WordChar(c) then Some((InWord, sp))
      else if c == ']' then Some((Closed, sp.(wordEnd := i, close := i + 1)))
      else if IsSpace(c) then Some((Trailing, sp.(wordEnd := i, close := i)))
      else if c == ';' then Some((Ended, sp.(wordEnd := i, close := i)))
      else None
    case Closed | Trailing =>
      if IsSpace(c) then Some((Trailing, sp))
      else if c == ';' then Some((Ended, sp))
      else None
    case Ended =>
      if IsSpace(c) then Some((Ended, sp)) else None
  }

  /** The end of the text at position `i`: the group is complete only after
      the word or later. */
  function UseFinal(i: nat, st: UseState, sp: UseSpan): Option<UseSpan> {
    match st
    case InWord => Some(sp.(wordEnd := i, close := i))
    case Closed | Trailing | Ended => Some(sp)
    case _ => None
  }

  /** Reading the rest of the statement from position `i` in state `st`.
      Each repetition of the pattern is followed by something it cannot
      consume, so this deterministic reading accepts exactly the texts the
      backtracking regular expression accepts, and captures the same
      group. */
  function UseScan(t: seq<char>, i: nat, st: UseState, sp: UseSpan): Option<UseSpan>
    requires i <= |t|
    decreases |t| - i
  {
    if i == |t| then UseFinal(i, st, sp)
    else
      match UseStep(t[i], i, st, sp)
      case None => None
      case Some(next) => UseScan(t, i + 1, next.0, next.1)
  }

  /** The whole-text, case-insensitive match of
      `USE \s+ ( \[? \w+ \]? ) \s* ;? \s*` against the trimmed statement,
      as the span of the captured group. */
  function UseSpanOf(t: seq<char>): (r: Option<UseSpan>)
    ensures r.Some? ==> IsUseWord(t) && r.value.open <= r.value.close <= |t|
  {
    if !IsUseWord(t) then None
    else
      UseScanOk(t, 3, NeedSpace, UseSpan(0, 0, 0, 0));
      UseScan(t, 3, NeedSpace, UseSpan(0, 0, 0, 0))
  }

  /** Each step keeps what is known of the span. */
  lemma UseStepOk(t: seq<char>, i: nat, st: UseState, sp: UseSpan)
    requires i < |t| && StateOk(t, i, st, sp) && UseStep(t[i], i, st, sp).Some?
    ensures var next := UseStep(t[i], i, st, sp).value; StateOk(t, i + 1, next.0, next.1)
  {
    var next := UseStep(t[i], i, st, sp).value;
    if st.InWord? && next.0.InWord? {
      assert forall k :: next.1.wordStart <= k < i + 1 ==> WordChar(t[k]) by {
        assert WordChar(t[i]);
      }
    }
  }

  /** At the end of the text a returned span is well formed. */
  lemma UseFinalOk(t: seq<char>, st: UseState, sp: UseSpan)
    requires StateOk(t, |t|, st, sp) && UseFinal(|t|, st, sp).Some?
    ensures SpanOk(t, UseFinal(|t|, st, sp).value)
  {
  }

  /** Every span the reading returns is a well-formed group. */
  lemma {:induction false} UseScanOk(t: seq<char>, i: nat, st: UseState, sp: UseSpan)
    requires i <= |t| && StateOk(t, i, st, sp)
    ensures UseScan(t, i, st, sp).Some? ==> SpanOk(t, UseScan(t, i, st, sp).value)
    decreases |t| - i
  {
    if i == |t| {
      if UseFinal(i, st, sp).Some? {
        UseFinalOk(t, st, sp);
      }
    } else if UseStep(t[i], i, st, sp).Some? {
      var next := UseStep(t[i], i, st, sp).value;
      UseStepOk(t, i, st, sp);
      UseScanOk(t, i + 1, next.0, next.1);
    }
  }

  /** The captured group `\[?\w+\]?`, if the statement is a `USE`. */
  function MatchUse(t: seq<char>): Option<seq<char>> {
    match UseSpanOf(t)
    case None => None
    case Some(sp) => Some(t[sp.open..sp.close])
  }

  /** `[database]` loses its brackets only when both are present. */
  function StripBrackets(g: seq<char>): seq<char> {
    if |g| >= 2 && g[0] == '[' && g[|g| - 1] == ']' then g[1..|g| - 1] else g
  }

  // ---------------------------------------------------------------------------
  // parseSQL
  // ---------------------------------------------------------------------------

  datatype StatementKind =
    | Empty | Use | Select | Insert | Update | Delete | Create | Alter | Drop
    | Execute | Begin | Commit | Rollback | Other

  /** The `type` text the backend reports for each kind. */
  function KindName(k: StatementKind): string {
    match k
    case Empty => "EMPTY"
    case Use => "USE"
    case Select => "SELECT"
    case Insert => "INSERT"
    case Update => "UPDATE"
    case Delete => "DELETE"
    case Create => "CREATE"
    case Alter => "ALTER"
    case Drop => "DROP"
    case Execute => "EXECUTE"
    case Begin => "BEGIN"
    case Commit => "COMMIT"
    case Rollback => "ROLLBACK"
    case Other => "OTHER"
  }

  /** Kinds recognised by a leading keyword. */
  predicate IsKeywordKind(k: StatementKind) {
    !(k.Empty? || k.Use? || k.Other?)
  }

  /** The shortest keyword that selects a kind (`EXEC` also covers
      `EXECUTE`). */
  function Keyword(k: StatementKind): string
    requires IsKeywordKind(k)
  {
    match k
    case Select => "SELECT"
    case Insert => "INSERT"
    case Update => "UPDATE"
    case Delete => "DELETE"
    case Create => "CREATE"
    case Alter => "ALTER"
    case Drop => "DROP"
    case Execute => "EXEC"
    case Begin => "BEGIN"
    case Commit => "COMMIT"
    case Rollback => "ROLLBACK"
  }

  datatype ParsedSql = ParsedSql(kind: StatementKind, database: string, originalSql: string)

  /** The keyword chain of `parseSQL`, in the order it tests the prefixes
      (`EXEC` and `EXECUTE` both give `EXECUTE`). */
  const KeywordChain: seq<(string, StatementKind)> := [
    ("SELECT", Select), ("INSERT", Insert), ("UPDATE", Update), ("DELETE", Delete),
    ("CREATE", Create), ("ALTER", Alter), ("DROP", Drop), ("EXEC", Execute),
    ("EXECUTE", Execute), ("BEGIN", Begin), ("COMMIT", Commit), ("ROLLBACK", Rollback)]

  /** The kind of the first keyword of the chain, from entry `i` on, that
      the upper-cased trimmed statement starts with. */
  function KeywordKindFrom(u: seq<char>, i: nat): (k: StatementKind)
    requires i <= |KeywordChain|
    ensures IsKeywordKind(k) || k == Other
    decreases |KeywordChain| - i
  {
    if i == |KeywordChain| then Other
    else if StartsWith(u, KeywordChain[i].0) then KeywordChain[i].1
    else KeywordKindFrom(u, i + 1)
  }

  function KeywordKind(u: seq<char>): StatementKind {
    KeywordKindFrom(u, 0)
  }

  /** `SQLParser::parseSQL`. */
  function ParseSql(sql: seq<char>): (r: ParsedSql)
    ensures r.originalSql == sql
    ensures r.kind == Empty <==> Trim(sql) == []
    ensures r.kind != Use ==> r.database == []
  {
    var t := Trim(sql);
    if t == [] then ParsedSql(Empty, [], sql)
    else match MatchUse(t)
      case Some(g) => ParsedSql(Use, StripBrackets(g), sql)
      case None => ParsedSql(KeywordKind(Upper(t)), [], sql)
  }

  /** `SQLParser::isUseStatement`. */
  predicate IsUseStatement(sql: seq<char>) {
    ParseSql(sql).kind == Use
  }

  /** `SQLParser::extractDatabaseName`. */
  function ExtractDatabaseName(sql: seq<char>): string {
    ParseSql(sql).database
  }

  /** Two leading characters that a prefix fixes. */
  predicate Begins(u: seq<char>, a: char, b: char) {
    |u| >= 2 && u[0] == a && u[1] == b
  }

  lemma StartsWithBegins(u: seq<char>, w: seq<char>)
    requires |w| >= 2 && StartsWith(u, w)
    ensures Begins(u, w[0], w[1])
  {
    assert u[..|w|][0] == u[0] && u[..|w|][1] == u[1];
  }

  /** Every keyword of the chain (and `USE`, `WITH`) has its own first two
      letters. */
  lemma KeywordHeads(u: seq<char>)
    ensures StartsWith(u, "SELECT") ==> Begins(u, 'S', 'E')
    ensures StartsWith(u, "INSERT") ==> Begins(u, 'I', 'N')
    ensures StartsWith(u, "UPDATE") ==> Begins(u, 'U', 'P')
    ensures StartsWith(u, "DELETE") ==> Begins(u, 'D', 'E')
    ensures StartsWith(u, "CREATE") ==> Begins(u, 'C', 'R')
    ensures StartsWith(u, "ALTER") ==> Begins(u, 'A', 'L')
    ensures StartsWith(u, "DROP") ==> Begins(u, 'D', 'R')
    ensures StartsWith(u, "EXEC") ==> Begins(u, 'E', 'X')
    ensures StartsWith(u, "BEGIN") ==> Begins(u, 'B', 'E')
    ensures StartsWith(u, "COMMIT") ==> Begins(u, 'C', 'O')
    ensures StartsWith(u, "ROLLBACK") ==> Begins(u, 'R', 'O')
    ensures StartsWith(u, "EXECUTE") ==> StartsWith(u, "EXEC")
  {
    if StartsWith(u, "SELECT") { StartsWithBegins(u, "SELECT"); }
    if StartsWith(u, "INSERT") { StartsWithBegins(u, "INSERT"); }
    if StartsWith(u, "UPDATE") { StartsWithBegins(u, "UPDATE"); }
    if StartsWith(u, "DELETE") { StartsWithBegins(u, "DELETE"); }
    if StartsWith(u, "CREATE") { StartsWithBegins(u, "CREATE"); }
    if StartsWith(u, "ALTER") { StartsWithBegins(u, "ALTER"); }
    if StartsWith(u, "DROP") { StartsWithBegins(u, "DROP"); }
    if StartsWith(u, "EXEC") { StartsWithBegins(u, "EXEC"); }
    if StartsWith(u, "BEGIN") { StartsWithBegins(u, "BEGIN"); }
    if StartsWith(u, "COMMIT") { StartsWithBegins(u, "COMMIT"); }
    if StartsWith(u, "ROLLBACK") { StartsWithBegins(u, "ROLLBACK"); }
    if StartsWith(u, "EXECUTE") {
      assert u[..4] == u[..7][..4];
    }
  }

  /** The keyword chain picks the one keyword the text starts with: no
      keyword is a prefix of another, so the order of the tests does not
      matter. */
  lemma KeywordKindExact(u: seq<char>, k: StatementKind)
    requires IsKeywordKind(k)
    ensures KeywordKind(u) == k <==> StartsWith(u, Keyword(k))
  {
    KeywordHeads(u);
    assert KeywordKindFrom(u, 0) == if StartsWith(u, "SELECT") then Select else KeywordKindFrom(u, 1);
    assert KeywordKindFrom(u, 1) == if StartsWith(u, "INSERT") then Insert else KeywordKindFrom(u, 2);
    assert KeywordKindFrom(u, 2) == if StartsWith(u, "UPDATE") then Update else KeywordKindFrom(u, 3);
    assert KeywordKindFrom(u, 3) == if StartsWith(u, "DELETE") then Delete else KeywordKindFrom(u, 4);
    assert KeywordKindFrom(u, 4) == if StartsWith(u, "CREATE") then Create else KeywordKindFrom(u, 5);
    assert KeywordKindFrom(u, 5) == if StartsWith(u, "ALTER") then Alter else KeywordKindFrom(u, 6);
    assert KeywordKindFrom(u, 6) == if StartsWith(u, "DROP") then Drop else KeywordKindFrom(u, 7);
    assert KeywordKindFrom(u, 7) == if StartsWith(u, "EXEC") then Execute else KeywordKindFrom(u, 8);
    assert KeywordKindFrom(u, 8) == if StartsWith(u, "EXECUTE") then Execute else KeywordKindFrom(u, 9);
    assert KeywordKindFrom(u, 9) == if StartsWith(u, "BEGIN") then Begin else KeywordKindFrom(u, 10);
    assert KeywordKindFrom(u, 10) == if StartsWith(u, "COMMIT") then Commit else KeywordKindFrom(u, 11);
    assert KeywordKindFrom(u, 11) == if StartsWith(u, "ROLLBACK") then Rollback else KeywordKindFrom(u, 12);
    assert KeywordKindFrom(u, 12) == Other;
  }

  /** A statement is of a keyword kind exactly when its trimmed, upper-cased
      text starts with that kind's keyword (a `USE` statement starts with
      none of them). */
  lemma ParseSqlKeyword(sql: seq<char>, k: StatementKind)
    requires IsKeywordKind(k)
    ensures ParseSql(sql).kind == k <==> StartsWith(Upper(Trim(sql)), Keyword(k))
  {
    var t := Trim(sql);
    var u := Upper(t);
    KeywordKindExact(u, k);
    KeywordHeads(u);
    if MatchUse(t).Some? {
      assert Begins(u, 'U', 'S');
    }
  }

  /** Removing the brackets of a well-formed group leaves a non-empty name
      of word characters, with at most one stray bracket at an end. */
  lemma GroupShape(t: seq<char>, sp: UseSpan)
    requires SpanOk(t, sp)
    ensures var d := StripBrackets(t[sp.open..sp.close]);
      d != [] && forall k :: 0 <= k < |d| ==> !IsSpace(d[k]) && d[k] != ';'
  {
    var g := t[sp.open..sp.close];
    assert g[0] == t[sp.open] && g[|g| - 1] == t[sp.close - 1];
    forall k | 0 <= k < |g| ensures g[k] == '[' || g[k] == ']' || WordChar(g[k]) {
      assert g[k] == t[sp.open + k];
    }
    if |g| >= 2 && g[0] == '[' && g[|g| - 1] == ']' {
      assert sp.wordStart == sp.open + 1 && sp.close == sp.wordEnd + 1;
      SliceOfSlice(t, sp.open, sp.close, 1, |g| - 1);
    }
  }

  /** The result of a `USE` statement names a database: it is never empty,
      and holds no white space and no semicolon. */
  lemma UseDatabaseShape(sql: seq<char>)
    requires ParseSql(sql).kind == Use
    ensures var d := ParseSql(sql).database;
      d != [] && forall k :: 0 <= k < |d| ==> !IsSpace(d[k]) && d[k] != ';'
  {
    var t := Trim(sql);
    UseScanOk(t, 3, NeedSpace, UseSpan(0, 0, 0, 0));
    var sp := UseSpanOf(t).value;
    GroupShape(t, sp);
  }

  /** A run of word characters keeps the reading inside the word. */
  lemma {:induction false} WordRun(t: seq<char>, i: nat, e: nat, sp: UseSpan)
    requires i <= e <= |t|
    requires forall k :: i <= k < e ==> WordChar(t[k])
    ensures UseScan(t, i, InWord, sp) == UseScan(t, e, InWord, sp)
    decreases e - i
  {
    if i < e {
      WordRun(t, i + 1, e, sp);
    }
  }

  /** The reading of `USE`, one space, an optionally bracketed word and an
      optional semicolon. */
  lemma UseScanOfShape(t: seq<char>, bracketed: bool, semicolon: bool, m: nat)
    requires IsUseWord(t) && |t| > 4 && IsSpace(t[3])
    requires var k := if bracketed then 5 else 4;
      var n := if bracketed then m + 1 else m;
      k < m && |t| == n + (if semicolon then 1 else 0) &&
      (bracketed ==> t[4] == '[' && t[m] == ']') &&
      (semicolon ==> t[n] == ';') &&
      forall i :: k <= i < m ==> WordChar(t[i])
    ensures var k := if bracketed then 5 else 4;
      var n := if bracketed then m + 1 else m;
      UseSpanOf(t) == Some(UseSpan(4, k, m, n))
  {
    var k := if bracketed then 5 else 4;
    var n := if bracketed then m + 1 else m;
    var sp0 := UseSpan(0, 0, 0, 0);
    var sp := UseSpan(4, k, 0, 0);
    var done := UseSpan(4, k, m, n);
    assert UseScan(t, 3, NeedSpace, sp0) == UseScan(t, 4, Gap, sp0);
    if bracketed {
      assert UseScan(t, 4, Gap, sp0) == UseScan(t, 5, Opened, sp);
      assert UseScan(t, 5, Opened, sp) == UseScan(t, 6, InWord, sp);
    } else {
      assert UseScan(t, 4, Gap, sp0) == UseScan(t, 5, InWord, sp);
    }
    WordRun(t, k + 1, m, sp);
    if bracketed {
      assert UseScan(t, m, InWord, sp) == UseScan(t, n, Closed, done);
      if semicolon {
        assert UseScan(t, n, Closed, done) == UseScan(t, n + 1, Ended, done);
      }
    } else if semicolon {
      assert UseScan(t, m, InWord, sp) == UseScan(t, m + 1, Ended, done);
    }
  }

  /** The layout of `kw name`, `kw [name]`, each with an optional `;`: the
      word runs from `k` to `m`, the group from 4 to `n`. */
  lemma UseTextLayout(kw: seq<char>, name: seq<char>, bracketed: bool, semicolon: bool, sql: seq<char>)
    returns (k: nat, m: nat, n: nat)
    requires |kw| == 3 && IsUseWord(kw)
    requires name != [] && forall i :: 0 <= i < |name| ==> WordChar(name[i])
    requires sql == kw + " " + (if bracketed then "[" + name + "]" else name) + (if semicolon then ";" else "")
    ensures k == (if bracketed then 5 else 4) && n == (if bracketed then m + 1 else m)
    ensures IsUseWord(sql) && |sql| > 4 && IsSpace(sql[3])
    ensures k < m && |sql| == n + (if semicolon then 1 else 0)
    ensures bracketed ==> sql[4] == '[' && sql[m] == ']'
    ensures semicolon ==> sql[n] == ';'
    ensures forall i :: k <= i < m ==> WordChar(sql[i])
    ensures sql[4..n] == (if bracketed then "[" + name + "]" else name)
    ensures !IsSpace(sql[0]) && !IsSpace(sql[|sql| - 1])
  {
    var group := if bracketed then "[" + name + "]" else name;
    var tail := if semicolon then ";" else "";
    k := if bracketed then 5 else 4;
    m := k + |name|;
    n := if bracketed then m + 1 else m;
    assert |sql| == n + |tail|;
    assert sql[..3] == kw && sql[3] == ' ';
    assert sql[4..n] == group;
    assert forall i :: k <= i < m ==> sql[i] == name[i - k];
    assert !IsSpace(sql[|sql| - 1]) by {
      if semicolon {
        assert sql[|sql| - 1] == ';';
      } else if bracketed {
        assert sql[|sql| - 1] == ']';
      } else {
        assert sql[|sql| - 1] == name[|name| - 1];
      }
    }
  }

  /** `use name`, `USE [name];` and the like name exactly `name`, whatever
      the case of the keyword. */
  lemma UseStatementNames(kw: seq<char>, name: seq<char>, bracketed: bool, semicolon: bool)
    requires |kw| == 3 && IsUseWord(kw)
    requires name != [] && forall k :: 0 <= k < |name| ==> WordChar(name[k])
    ensures var group := if bracketed then "[" + name + "]" else name;
      var sql := kw + " " + group + (if semicolon then ";" else "");
      ParseSql(sql).kind == Use && ExtractDatabaseName(sql) == name
  {
    var group := if bracketed then "[" + name + "]" else name;
    var sql := kw + " " + group + (if semicolon then ";" else "");
    var k, m, n := UseTextLayout(kw, name, bracketed, semicolon, sql);
    TrimTrimmed(sql);
    UseScanOfShape(sql, bracketed, semicolon, m);
    assert MatchUse(sql) == Some(group);
  }

  /** Same white space, word characters and punctuation at every
      position. */
  predicate SameClasses(t: seq<char>, u: seq<char>) {
    |t| == |u| &&
    forall k :: 0 <= k < |t| ==>
      (IsSpace(t[k]) <==> IsSpace(u[k])) && (WordChar(t[k]) <==> WordChar(u[k])) &&
      (t[k] == '[' <==> u[k] == '[') && (t[k] == ']' <==> u[k] == ']') &&
      (t[k] == ';' <==> u[k] == ';') && UpperChar(t[k]) == UpperChar(u[k])
  }

  /** The reading looks only at character classes, so texts with the same
      classes are read alike. */
  lemma {:induction false} UseScanSame(t: seq<char>, u: seq<char>, i: nat, st: UseState, sp: UseSpan)
    requires SameClasses(t, u) && i <= |t|
    ensures UseScan(t, i, st, sp) == UseScan(u, i, st, sp)
    decreases |t| - i
  {
    if i < |t| {
      assert UseStep(t[i], i, st, sp) == UseStep(u[i], i, st, sp);
      if UseStep(t[i], i, st, sp).Some? {
        var next := UseStep(t[i], i, st, sp).value;
        UseScanSame(t, u, i + 1, next.0, next.1);
      }
    }
  }

  lemma UseSpanSame(t: seq<char>, u: seq<char>)
    requires SameClasses(t, u)
    ensures UseSpanOf(t) == UseSpanOf(u)
  {
    if |t| >= 3 {
      UseScanSame(t, u, 3, NeedSpace, UseSpan(0, 0, 0, 0));
    }
  }

  lemma UpperSameClasses(t: seq<char>)
    ensures SameClasses(t, Upper(t))
  {
  }

  /** The classification is case-insensitive: upper-casing a statement does
      not change its kind. */
  lemma ParseSqlCaseInsensitive(sql: seq<char>)
    ensures ParseSql(Upper(sql)).kind == ParseSql(sql).kind
  {
    var t := Trim(sql);
    TrimUpper(sql);
    UpperSameClasses(t);
    UseSpanSame(t, Upper(t));
    UpperIdempotent(t);
  }

  // ---------------------------------------------------------------------------
  // isReadOnlyQuery
  // ---------------------------------------------------------------------------

  /** The keywords whose presence anywhere makes a `WITH` statement
      writable. */
  const DmlKeywords: seq<string> := ["INSERT", "UPDATE", "DELETE", "MERGE"]

  /** `SQLParser::isReadOnlyQuery`: a trimmed statement starting with
      `select` (any case) is read-only; one starting with `with` is read-only
      when none of the DML keywords appears anywhere in it; nothing else
      is. */
  function IsReadOnlyQuery(sql: seq<char>): bool {
    var t := Trim(sql);
    if StartsWith(Lower(t), "select") then true
    else if !StartsWith(Lower(t), "with") then false
    else forall i :: 0 <= i < |DmlKeywords| ==> !Contains(Upper(t), DmlKeywords[i])
  }

  /** The byte-wise case-insensitive prefix test agrees with the upper-cased
      one. */
  lemma LowerUpperPrefix(t: seq<char>, lo: seq<char>, up: seq<char>)
    requires |lo| == |up|
    requires forall k :: 0 <= k < |lo| ==> 'a' <= lo[k] <= 'z' && up[k] == UpperChar(lo[k])
    ensures StartsWith(Lower(t), lo) <==> StartsWith(Upper(t), up)
  {
    if |lo| <= |t| {
      if StartsWith(Lower(t), lo) {
        assert forall k :: 0 <= k < |up| ==> Upper(t)[k] == up[k] by {
          forall k | 0 <= k < |up| ensures Upper(t)[k] == up[k] {
            assert Lower(t)[k] == lo[k];
          }
        }
      }
      if StartsWith(Upper(t), up) {
        assert forall k :: 0 <= k < |lo| ==> Lower(t)[k] == lo[k] by {
          forall k | 0 <= k < |lo| ensures Lower(t)[k] == lo[k] {
            assert Upper(t)[k] == up[k];
          }
        }
      }
    }
  }

  /** A statement starting with `WITH` is of no known kind. */
  lemma WithIsOther(sql: seq<char>)
    requires StartsWith(Upper(Trim(sql)), "WITH")
    ensures ParseSql(sql).kind == Other
  {
    var t := Trim(sql);
    var u := Upper(t);
    StartsWithBegins(u, "WITH");
    KeywordHeads(u);
    var k := KeywordKind(u);
    if IsKeywordKind(k) {
      KeywordKindExact(u, k);
    }
    assert !IsUseWord(t) by {
      assert u[0] == UpperChar(t[0]);
    }
  }

  /** Every `SELECT` statement is read-only, and the only other read-only
      statements are `WITH` statements free of DML keywords: whatever the
      parser classifies as a write, DDL, `EXEC`, transaction control, `USE`
      or empty is refused. */
  lemma ReadOnlyAgreesWithParse(sql: seq<char>)
    ensures ParseSql(sql).kind == Select ==> IsReadOnlyQuery(sql)
    ensures IsReadOnlyQuery(sql) && ParseSql(sql).kind != Select ==>
      ParseSql(sql).kind == Other && StartsWith(Upper(Trim(sql)), "WITH") &&
      forall i :: 0 <= i < |DmlKeywords| ==> !Contains(Upper(Trim(sql)), DmlKeywords[i])
  {
    var t := Trim(sql);
    LowerUpperPrefix(t, "select", "SELECT");
    LowerUpperPrefix(t, "with", "WITH");
    ParseSqlKeyword(sql, Select);
    if StartsWith(Upper(t), "WITH") {
      WithIsOther(sql);
    }
  }

  // ---------------------------------------------------------------------------
  // splitStatements
  // ---------------------------------------------------------------------------

  /** A trimmed piece is kept only when something is left of it. */
  function KeepNonEmpty(t: seq<char>): seq<seq<char>> {
    if t == [] then [] else [t]
  }

  /** The statements of a list of pieces: each piece trimmed, the empty
      ones dropped, the order kept. */
  function Kept(parts: seq<seq<char>>): seq<seq<char>>
    decreases |parts|
  {
    if parts == [] then []
    else Kept(parts[..|parts| - 1]) + KeepNonEmpty(Trim(parts[|parts| - 1]))
  }

  /** The statements of a batch: the pieces between semicolons, trimmed,
      with the empty ones dropped. */
  function Statements(s: seq<char>): seq<seq<char>> {
    Kept(SplitOn(s, ';'))
  }

  /** `SQLParser::splitStatements`. */
  method SplitStatements(sql: seq<char>) returns (statements: seq<seq<char>>)
    ensures statements == Statements(sql)
  {
    var parts := SplitOn(sql, ';');
    statements := [];
    var j := 0;
    while j < |parts|
      invariant j <= |parts|
      invariant statements == Kept(parts[..j])
    {
      var trimmed := Trim(parts[j]);
      if trimmed != [] {
        statements := statements + [trimmed];
      }
      assert parts[..j + 1][..j] == parts[..j];
      j := j + 1;
    }
    assert parts[..j] == parts;
  }

  /** Whatever `Trim` keeps is a piece of its input. */
  lemma TrimInfix(s: seq<char>)
    ensures forall c :: c in Trim(s) ==> c in s
  {
    var a := SpaceEnd(s, 0);
    var b := SpaceStart(s, a, |s|);
    forall c | c in Trim(s) ensures c in s {
      var k :| 0 <= k < |Trim(s)| && Trim(s)[k] == c;
      assert s[a + k] == c;
    }
  }

  /** Every statement kept from semicolon-free pieces is non-empty, already
      trimmed and free of `;`. */
  lemma {:induction false} KeptWellFormed(parts: seq<seq<char>>)
    requires forall k :: 0 <= k < |parts| ==> ';' !in parts[k]
    ensures forall j :: 0 <= j < |Kept(parts)| ==>
      var x := Kept(parts)[j];
      x != [] && Trim(x) == x && ';' !in x
    decreases |parts|
  {
    if parts != [] {
      var last := parts[|parts| - 1];
      KeptWellFormed(parts[..|parts| - 1]);
      TrimIdempotent(last);
      TrimInfix(last);
    }
  }

  lemma StatementsWellFormed(s: seq<char>)
    ensures forall j :: 0 <= j < |Statements(s)| ==>
      var x := Statements(s)[j];
      x != [] && Trim(x) == x && ';' !in x
  {
    SplitOnJoin(s, ';');
    KeptWellFormed(SplitOn(s, ';'));
  }

  /** Pieces that are already statements are kept as they are. */
  lemma {:induction false} KeptClean(xs: seq<seq<char>>)
    requires forall j :: 0 <= j < |xs| ==> xs[j] != [] && Trim(xs[j]) == xs[j]
    ensures Kept(xs) == xs
    decreases |xs|
  {
    if xs != [] {
      var init, last := xs[..|xs| - 1], xs[|xs| - 1];
      assert forall j :: 0 <= j < |init| ==> init[j] == xs[j];
      KeptClean(init);
      assert Kept(xs) == init + KeepNonEmpty(Trim(last));
      assert xs == init + [last];
    }
  }

  /** Splitting a `;`-joined list of non-empty, trimmed, semicolon-free
      statements gives the list back. */
  lemma StatementsJoin(xs: seq<seq<char>>)
    requires forall j :: 0 <= j < |xs| ==> xs[j] != [] && Trim(xs[j]) == xs[j] && ';' !in xs[j]
    ensures Statements(Join(xs, ";")) == xs
  {
    if xs == [] {
      TrimTrimmed([]);
      assert Kept([[]]) == Kept([]) + KeepNonEmpty(Trim([]));
    } else {
      JoinSplitOn(xs, ';');
      KeptClean(xs);
    }
  }
}
