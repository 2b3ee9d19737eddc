/** The release helpers of the build scripts: picking the latest version tag,
    bumping a version, reading the commit log, sorting commit messages into
    categories and writing the release notes. Running `git` is outside the
    model: its exit status and its output are parameters. */
module Releases {
  import opened Wrappers
  import opened Strings
  import opened Lists

  // ---------------------------------------------------------------------------
  // Python's text primitives as the helpers use them
  // ---------------------------------------------------------------------------

  /** The characters `str.strip()` removes and `\s` matches. */
  predicate IsPySpace(c: char) {
    c == ' ' || '\t' <= c <= '\r' || '\U{1C}' <= c <= '\U{1F}' || c == '\U{85}' || c == '\U{A0}'
    || c == '\U{1680}' || '\U{2000}' <= c <= '\U{200A}' || c == '\U{2028}' || c == '\U{2029}'
    || c == '\U{202F}' || c == '\U{205F}' || c == '\U{3000}'
  }

  /** The longest suffix whose first character does not satisfy `drop`. */
  function DropWhile(s: string, drop: char -> bool): (r: string)
    ensures |r| <= |s| && r == s[|s| - |r|..]
    ensures r != [] ==> !drop(r[0])
    ensures forall k :: 0 <= k < |s| - |r| ==> drop(s[k])
  {
    if s == [] || !drop(s[0]) then s else DropWhile(s[1..], drop)
  }

  /** The longest prefix whose last character does not satisfy `drop`. */
  function DropLastWhile(s: string, drop: char -> bool): (r: string)
    ensures |r| <= |s| && r == s[..|r|]
    ensures r != [] ==> !drop(r[|r| - 1])
    ensures forall k :: |r| <= k < |s| ==> drop(s[k])
  {
    if s == [] || !drop(s[|s| - 1]) then s else DropLastWhile(s[..|s| - 1], drop)
  }

  /** `s.strip()` */
  function Strip(s: string): string {
    DropLastWhile(DropWhile(s, IsPySpace), IsPySpace)
  }

  /** `s.lstrip("v")` */
  function StripLeadingV(s: string): string {
    DropWhile(s, c => c == 'v')
  }

  /** A decimal numeral: what `\d+` matches and `int` reads. */
  predicate IsNumeral(s: string) {
    s != [] && forall k :: 0 <= k < |s| ==> IsDigit(s[k])
  }

  // ---------------------------------------------------------------------------
  // Versions
  // ---------------------------------------------------------------------------

  /** `[int(x) for x in version.split(".")]`; `None` where `int` raises. */
  function VersionParts(version: string): (r: Option<seq<nat>>)
    ensures r.Some? ==> |r.value| == |SplitOn(version, '.')|
  {
    var pieces := SplitOn(version, '.');
    if forall k :: 0 <= k < |pieces| ==> IsNumeral(pieces[k]) then Some(Map(pieces, DigitsValue)) else None
  }

  /** The parts a bump must be able to index: the major bump reads one, the
      minor bump two, any other bump three. */
  function PartsRead(bump: string): nat {
    if bump == "major" then 1 else if bump == "minor" then 2 else 3
  }

  /** `increment_version`: `None` where the source raises, that is when a
      part is not a number or the bump indexes a part that is not there. */
  function IncrementVersion(version: string, bump: string): (r: Option<string>)
    ensures r.Some? <==> VersionParts(version).Some? && |VersionParts(version).value| >= PartsRead(bump)
  {
    match VersionParts(version)
    case None => None
    case Some(parts) =>
      if bump == "major" then Some(NatToString(parts[0] + 1) + ".0.0")
      else if bump == "minor" then
        if |parts| < 2 then None else Some(NatToString(parts[0]) + "." + NatToString(parts[1] + 1) + ".0")
      else if |parts| < 3 then None
      else Some(NatToString(parts[0]) + "." + NatToString(parts[1]) + "." + NatToString(parts[2] + 1))
  }

  lemma NumeralNoDot(s: string)
    requires IsNumeral(s)
    ensures '.' !in s
  {
    forall k | 0 <= k < |s| ensures s[k] != '.' {
      assert IsDigit(s[k]);
    }
  }

  /** Three numerals joined by dots read back as their values. */
  lemma NumeralsParts(pa: string, pb: string, pc: string)
    requires IsNumeral(pa) && IsNumeral(pb) && IsNumeral(pc)
    ensures VersionParts(pa + "." + pb + "." + pc) == Some([DigitsValue(pa), DigitsValue(pb), DigitsValue(pc)])
  {
    var pieces := [pa, pb, pc];
    assert pieces[1..] == [pb, pc];
    assert [pb, pc][1..] == [pc];
    assert Join([pb, pc], ['.']) == pb + ['.'] + pc;
    assert Join(pieces, ['.']) == pa + ['.'] + (pb + ['.'] + pc);
    assert pa + ['.'] + (pb + ['.'] + pc) == pa + "." + pb + "." + pc;
    NumeralNoDot(pa);
    NumeralNoDot(pb);
    NumeralNoDot(pc);
    JoinSplitOn(pieces, '.');
    var text := pa + "." + pb + "." + pc;
    assert SplitOn(text, '.') == pieces;
    assert forall k :: 0 <= k < |pieces| ==> IsNumeral(pieces[k]);
    MapAt(pieces, DigitsValue, 0);
    MapAt(pieces, DigitsValue, 1);
    MapAt(pieces, DigitsValue, 2);
    assert Map(pieces, DigitsValue) == [DigitsValue(pa), DigitsValue(pb), DigitsValue(pc)];
  }

  /** The three numbers of a version in dotted form read back exactly. */
  lemma VersionTextParts(a: nat, b: nat, c: nat)
    ensures VersionParts(NatToString(a) + "." + NatToString(b) + "." + NatToString(c)) == Some([a, b, c])
  {
    NatToStringRoundTrip(a);
    NatToStringRoundTrip(b);
    NatToStringRoundTrip(c);
    NumeralsParts(NatToString(a), NatToString(b), NatToString(c));
  }

  /** What a bump does to the numbers: the bumped part grows by one and the
      parts after it are reset. */
  function Bumped(parts: seq<nat>, bump: string): seq<nat>
    requires |parts| >= PartsRead(bump)
  {
    if bump == "major" then [parts[0] + 1, 0, 0]
    else if bump == "minor" then [parts[0], parts[1] + 1, 0]
    else [parts[0], parts[1], parts[2] + 1]
  }

  /** A bumped version reads back as the bumped numbers. */
  lemma IncrementVersionParts(version: string, bump: string)
    requires IncrementVersion(version, bump).Some?
    ensures VersionParts(IncrementVersion(version, bump).value) == Some(Bumped(VersionParts(version).value, bump))
  {
    var parts := VersionParts(version).value;
    var zero := NatToString(0);
    assert zero == "0";
    var r := IncrementVersion(version, bump).value;
    if bump == "major" {
      assert r == NatToString(parts[0] + 1) + "." + zero + "." + zero;
      VersionTextParts(parts[0] + 1, 0, 0);
    } else if bump == "minor" {
      assert r == NatToString(parts[0]) + "." + NatToString(parts[1] + 1) + "." + zero;
      VersionTextParts(parts[0], parts[1] + 1, 0);
    } else {
      VersionTextParts(parts[0], parts[1], parts[2] + 1);
    }
  }

  /** `a` comes after `b` in version order (first three parts). */
  predicate Newer(a: seq<nat>, b: seq<nat>)
    requires |a| >= 3 && |b| >= 3
  {
    a[0] > b[0] || (a[0] == b[0] && (a[1] > b[1] || (a[1] == b[1] && a[2] > b[2])))
  }

  /** Every bump of a three-part version gives a newer version. */
  lemma BumpedNewer(parts: seq<nat>, bump: string)
    requires |parts| >= 3
    ensures Newer(Bumped(parts, bump), parts)
  {
  }

  // ---------------------------------------------------------------------------
  // get_latest_tag
  // ---------------------------------------------------------------------------

  /** `re.match(r"^v?\d+\.\d+\.\d+$", tag)` for a tag holding no line
      break: an optional `v`, then three numerals separated by dots. */
  predicate IsVersionTag(tag: string) {
    var body := if tag != [] && tag[0] == 'v' then tag[1..] else tag;
    var pieces := SplitOn(body, '.');
    |pieces| == 3 && IsNumeral(pieces[0]) && IsNumeral(pieces[1]) && IsNumeral(pieces[2])
  }

  /** The lines of `git tag` output, as the helper splits them. */
  function OutputLines(stdout: Option<string>): seq<string> {
    SplitOn(Strip(if stdout.Some? then stdout.value else ""), '\n')
  }

  /** The first tag in version form, without its `v`. */
  function FirstVersionTag(tags: seq<string>): Option<string> {
    match FindFirst(tags, IsVersionTag)
    case Some(i) => Some(StripLeadingV(tags[i]))
    case None => None
  }

  /** `get_latest_tag`: the first listed tag in version form, without its
      `v`; none when `git` fails or no tag has that form. */
  function LatestTag(returncode: int, stdout: Option<string>): Option<string> {
    if returncode != 0 then None else FirstVersionTag(OutputLines(stdout))
  }

  method GetLatestTag(returncode: int, stdout: Option<string>) returns (tag: Option<string>)
    ensures tag == LatestTag(returncode, stdout)
  {
    if returncode != 0 {
      return None;
    }
    tag := FindVersionTag(OutputLines(stdout));
  }

  /** The loop of `get_latest_tag` over the listed tags. */
  method FindVersionTag(tags: seq<string>) returns (tag: Option<string>)
    ensures tag == FirstVersionTag(tags)
  {
    for i := 0 to |tags|
      invariant FindFirst(tags, IsVersionTag) == FindFrom(tags, IsVersionTag, i)
    {
      if IsVersionTag(tags[i]) {
        return Some(StripLeadingV(tags[i]));
      }
    }
    return None;
  }

  /** A version tag without its `v` is a three-part version. */
  lemma VersionTagParts(tag: string)
    requires IsVersionTag(tag)
    ensures VersionParts(StripLeadingV(tag)).Some? && |VersionParts(StripLeadingV(tag)).value| == 3
  {
    var body := if tag != [] && tag[0] == 'v' then tag[1..] else tag;
    var pieces := SplitOn(body, '.');
    SplitOnJoin(body, '.');
    JoinPrefix(pieces, ['.']);
    assert body[0] == pieces[0][0];
    if tag != [] && tag[0] == 'v' {
      assert tag[1..] == body;
    }
    assert StripLeadingV(tag) == body;
  }

  /** The tag picked is a three-part version, so every bump of it
      succeeds. */
  lemma FirstVersionTagParts(tags: seq<string>)
    requires FirstVersionTag(tags).Some?
    ensures VersionParts(FirstVersionTag(tags).value).Some?
    ensures |VersionParts(FirstVersionTag(tags).value).value| == 3
  {
    var i := FindFirst(tags, IsVersionTag).value;
    VersionTagParts(tags[i]);
  }

  // ---------------------------------------------------------------------------
  // get_commits_since_tag
  // ---------------------------------------------------------------------------

  datatype Commit = Commit(message: string, hash: string)

  /** One `%s|%h|%an` line: the message and the hash are the first two
      `|`-separated fields; a line without `|` is skipped. */
  function CommitOf(line: string): (r: Option<Commit>)
    ensures r.Some? <==> '|' in line
    ensures r.Some? ==> '|' !in r.value.message && '|' !in r.value.hash
  {
    var parts := SplitOn(line, '|');
    SplitOnJoin(line, '|');
    CountCharIn(line, '|');
    if |parts| >= 2 then Some(Commit(parts[0], parts[1])) else None
  }

  lemma {:induction false} CountCharIn(s: string, c: char)
    ensures CountChar(s, c) > 0 <==> c in s
  {
    if s != [] && s[0] != c {
      CountCharIn(s[1..], c);
      assert s == [s[0]] + s[1..];
    }
  }

  /** A log line the format produces gives back its message and hash,
      whatever the author name holds. */
  lemma CommitLineRoundTrip(message: string, hash: string, author: string)
    requires '|' !in message && '|' !in hash
    ensures CommitOf(message + "|" + hash + "|" + author) == Some(Commit(message, hash))
  {
    SplitOnCons(message, '|', hash + "|" + author);
    SplitOnCons(hash, '|', author);
    assert message + "|" + hash + "|" + author == message + ['|'] + (hash + ['|'] + author);
  }

  /** The commits of the log lines, in order. */
  function Commits(lines: seq<string>): (r: seq<Commit>)
    ensures |r| <= |lines|
  {
    if lines == [] then []
    else
      var last := lines[|lines| - 1];
      Commits(lines[..|lines| - 1]) + (match CommitOf(last) case Some(c) => [c] case None => [])
  }

  /** `get_commits_since_tag` after `git log`: nothing when it fails or
      prints only blanks, otherwise the commits of its lines. */
  function LogCommits(returncode: int, stdout: Option<string>): seq<Commit> {
    if returncode != 0 || Strip(if stdout.Some? then stdout.value else "") == [] then []
    else Commits(OutputLines(stdout))
  }

  method GetCommits(returncode: int, stdout: Option<string>) returns (commits: seq<Commit>)
    ensures commits == LogCommits(returncode, stdout)
  {
    var out := if stdout.Some? then stdout.value else "";
    if returncode != 0 || Strip(out) == [] {
      return [];
    }
    commits := ParseCommitLines(SplitOn(Strip(out), '\n'));
  }

  /** The loop of `get_commits_since_tag` over the log lines. */
  method ParseCommitLines(lines: seq<string>) returns (commits: seq<Commit>)
    ensures commits == Commits(lines)
  {
    commits := [];
    for i := 0 to |lines|
      invariant commits == Commits(lines[..i])
    {
      assert lines[..i + 1][..i] == lines[..i];
      var parsed := CommitOf(lines[i]);
      if parsed.Some? {
        commits := commits + [parsed.value];
      }
    }
    assert lines[..|lines|] == lines;
  }

  // ---------------------------------------------------------------------------
  // categorize_commits
  // ---------------------------------------------------------------------------

  /** The six category keys. */
  const CategoryKeys: set<string> := {"feat", "fix", "perf", "refactor", "docs", "other"}

  /** The category of a message: its first matching prefix, else `other`. */
  function Category(message: string): (r: string)
    ensures r in CategoryKeys
    ensures r != "other" ==> StartsWith(message, r)
  {
    if StartsWith(message, "feat") then "feat"
    else if StartsWith(message, "fix") then "fix"
    else if StartsWith(message, "perf") then "perf"
    else if StartsWith(message, "refactor") then "refactor"
    else if StartsWith(message, "docs") then "docs"
    else "other"
  }

  function InCategory(key: string): string -> bool {
    (message: string) => Category(message) == key
  }

  function Message(c: Commit): string { c.message }

  /** The messages of a category, in commit order. */
  function Bucket(commits: seq<Commit>, key: string): seq<string> {
    Filter(Map(commits, Message), InCategory(key))
  }

  /** `categorize_commits`: every key present, each holding its messages. */
  method CategorizeCommits(commits: seq<Commit>) returns (categories: map<string, seq<string>>)
    ensures categories.Keys == CategoryKeys
    ensures forall k :: k in categories ==> categories[k] == Bucket(commits, k)
  {
    categories := map["feat" := [], "fix" := [], "perf" := [], "refactor" := [], "docs" := [], "other" := []];
    var messages := Map(commits, Message);
    for i := 0 to |commits|
      invariant categories.Keys == CategoryKeys
      invariant forall k :: k in categories ==> categories[k] == Filter(messages[..i], InCategory(k))
    {
      MapAt(commits, Message, i);
      var msg := commits[i].message;
      CategorizeStep(categories, messages, i);
      categories := categories[Category(msg) := categories[Category(msg)] + [msg]];
    }
    assert messages[..|commits|] == messages;
  }

  /** One more message appended to the bucket of its category. */
  lemma CategorizeStep(categories: map<string, seq<string>>, messages: seq<string>, i: nat)
    requires i < |messages|
    requires categories.Keys == CategoryKeys
    requires forall k :: k in categories ==> categories[k] == Filter(messages[..i], InCategory(k))
    ensures var key := Category(messages[i]);
      var next := categories[key := categories[key] + [messages[i]]];
      next.Keys == CategoryKeys && forall k :: k in next ==> next[k] == Filter(messages[..i + 1], InCategory(k))
  {
    var key := Category(messages[i]);
    var next := categories[key := categories[key] + [messages[i]]];
    forall k | k in next ensures next[k] == Filter(messages[..i + 1], InCategory(k)) {
      FilterSnoc(messages, i, InCategory(k));
    }
  }

  /** A message sits in the bucket of its category and in no other. */
  lemma BucketMembers(commits: seq<Commit>, key: string, message: string)
    ensures message in Bucket(commits, key) <==> message in Map(commits, Message) && Category(message) == key
  {
    FilterMembers(Map(commits, Message), InCategory(key), message);
  }

  function BucketSizes(messages: seq<string>): nat {
    |Filter(messages, InCategory("feat"))| + |Filter(messages, InCategory("fix"))|
    + |Filter(messages, InCategory("perf"))| + |Filter(messages, InCategory("refactor"))|
    + |Filter(messages, InCategory("docs"))| + |Filter(messages, InCategory("other"))|
  }

  /** The first message counts in the bucket of its category only. */
  lemma BucketHead(messages: seq<string>, key: string)
    requires messages != []
    ensures |Filter(messages, InCategory(key))|
         == |Filter(messages[1..], InCategory(key))| + (if Category(messages[0]) == key then 1 else 0)
  {
  }

  lemma OneCategory(c: string)
    requires c in CategoryKeys
    ensures (if c == "feat" then 1 else 0) + (if c == "fix" then 1 else 0) + (if c == "perf" then 1 else 0)
          + (if c == "refactor" then 1 else 0) + (if c == "docs" then 1 else 0) + (if c == "other" then 1 else 0) == 1
  {
  }

  /** The buckets together hold every message exactly once. */
  lemma {:induction false} BucketsPartition(messages: seq<string>)
    ensures BucketSizes(messages) == |messages|
  {
    if messages != [] {
      BucketsPartition(messages[1..]);
      BucketHead(messages, "feat");
      BucketHead(messages, "fix");
      BucketHead(messages, "perf");
      BucketHead(messages, "refactor");
      BucketHead(messages, "docs");
      BucketHead(messages, "other");
      OneCategory(Category(messages[0]));
    }
  }

  // ---------------------------------------------------------------------------
  // generate_release_notes
  // ---------------------------------------------------------------------------

  /** `re.sub(r"^<prefix>[:\s]*", "", message)` */
  function Cleaned(prefix: string, message: string): string {
    if StartsWith(message, prefix) then DropWhile(message[|prefix|..], c => c == ':' || IsPySpace(c)) else message
  }

  function ItemLine(prefix: string): string -> string {
    (message: string) => "- " + Cleaned(prefix, message)
  }

  /** The lines of one section: nothing for an empty category, otherwise
      the heading, one item per message and a blank line. */
  function SectionLines(heading: string, prefix: string, messages: seq<string>): seq<string> {
    if messages == [] then [] else [heading] + Map(messages, ItemLine(prefix)) + [""]
  }

  const FeatHeading: string := "## ✨ New Features\n"
  const FixHeading: string := "## \U{1F41B} Bug Fixes\n"
  const PerfHeading: string := "## ⚡ Performance\n"
  const RefactorHeading: string := "## \U{1F527} Internal Changes\n"

  function Header(version: string): string {
    "## v" + version + "\n"
  }

  /** A previous tag counts only when it is a non-empty string. */
  predicate HasPrevious(prevTag: Option<string>) {
    prevTag.Some? && prevTag.value != []
  }

  /** The header and the four sections, for the messages of each. */
  function SectionsLines(version: string, feat: seq<string>, fix: seq<string>, perf: seq<string>, refactor: seq<string>)
    : seq<string>
  {
    [Header(version)]
    + SectionLines(FeatHeading, "feat", feat)
    + SectionLines(FixHeading, "fix", fix)
    + SectionLines(PerfHeading, "perf", perf)
    + SectionLines(RefactorHeading, "refactor", refactor)
  }

  /** The lines of the notes for the commits the log gave. */
  function NotesLines(version: string, prevTag: Option<string>, commits: seq<Commit>): seq<string> {
    if !HasPrevious(prevTag) then [Header(version)]
    else SectionsLines(version, Bucket(commits, "feat"), Bucket(commits, "fix"), Bucket(commits, "perf"),
                       Bucket(commits, "refactor"))
  }

  /** The loop of one section of `generate_release_notes`. */
  method AppendSection(lines: seq<string>, heading: string, prefix: string, messages: seq<string>)
    returns (result: seq<string>)
    ensures result == lines + SectionLines(heading, prefix, messages)
  {
    result := lines;
    if messages != [] {
      result := result + [heading];
      for i := 0 to |messages|
        invariant result == lines + [heading] + Map(messages[..i], ItemLine(prefix))
      {
        MapSnoc(messages, i, ItemLine(prefix));
        var clean := Cleaned(prefix, messages[i]);
        Regroup(lines + [heading], Map(messages[..i], ItemLine(prefix)), ["- " + clean]);
        result := result + ["- " + clean];
      }
      assert messages[..|messages|] == messages;
      Regroup(lines, [heading] + Map(messages, ItemLine(prefix)), [""]);
      Regroup(lines, [heading], Map(messages, ItemLine(prefix)));
      result := result + [""];
    }
  }

  lemma Regroup<T>(a: seq<T>, b: seq<T>, c: seq<T>)
    ensures a + b + c == a + (b + c)
  {
  }

  /** `generate_release_notes`, with the exit status and output of the
      `git log` it runs when there is a previous tag. */
  method GenerateReleaseNotes(version: string, prevTag: Option<string>, logStatus: int, logOutput: Option<string>)
    returns (notes: string)
    ensures !HasPrevious(prevTag) ==> notes == Header(version)
    ensures notes == Join(NotesLines(version, prevTag, LogCommits(logStatus, logOutput)), "\n")
  {
    var lines := [Header(version)];
    if HasPrevious(prevTag) {
      var commits := GetCommits(logStatus, logOutput);
      var categories := CategorizeCommits(commits);
      lines := AppendSection(lines, FeatHeading, "feat", categories["feat"]);
      lines := AppendSection(lines, FixHeading, "fix", categories["fix"]);
      lines := AppendSection(lines, PerfHeading, "perf", categories["perf"]);
      lines := AppendSection(lines, RefactorHeading, "refactor", categories["refactor"]);
      assert lines == SectionsLines(version, categories["feat"], categories["fix"], categories["perf"],
                                    categories["refactor"]);
    }
    notes := Join(lines, "\n");
  }

  /** A bullet line of the notes. */
  predicate IsItem(line: string) {
    |line| >= 2 && line[..2] == "- "
  }

  /** The bullet lines of one section are its items. */
  lemma SectionItems(heading: string, prefix: string, messages: seq<string>)
    requires heading != [] && heading[0] == '#'
    ensures Filter(SectionLines(heading, prefix, messages), IsItem) == Map(messages, ItemLine(prefix))
  {
    if messages != [] {
      var items := Map(messages, ItemLine(prefix));
      forall k | 0 <= k < |items| ensures IsItem(items[k]) {
        MapAt(messages, ItemLine(prefix), k);
        assert items[k][..2] == "- ";
      }
      FilterAll(items, IsItem);
      FilterAppend([heading], items, IsItem);
      FilterAppend([heading] + items, [""], IsItem);
      assert Filter([heading], IsItem) == [];
      assert Filter([""], IsItem) == [];
      assert [] + items + [] == items;
    }
  }

  /** The bullet lines of the notes are the cleaned messages of the
      features, fixes, performance and refactoring commits, in that order:
      documentation and other commits never appear. */
  lemma NotesItems(version: string, prevTag: Option<string>, commits: seq<Commit>)
    requires HasPrevious(prevTag)
    ensures Filter(NotesLines(version, prevTag, commits), IsItem)
         == Map(Bucket(commits, "feat"), ItemLine("feat")) + Map(Bucket(commits, "fix"), ItemLine("fix"))
            + Map(Bucket(commits, "perf"), ItemLine("perf")) + Map(Bucket(commits, "refactor"), ItemLine("refactor"))
  {
    SectionsItems(version, Bucket(commits, "feat"), Bucket(commits, "fix"), Bucket(commits, "perf"),
                  Bucket(commits, "refactor"));
  }

  lemma SectionsItems(version: string, feat: seq<string>, fix: seq<string>, perf: seq<string>, refactor: seq<string>)
    ensures Filter(SectionsLines(version, feat, fix, perf, refactor), IsItem)
         == Map(feat, ItemLine("feat")) + Map(fix, ItemLine("fix"))
            + Map(perf, ItemLine("perf")) + Map(refactor, ItemLine("refactor"))
  {
    SectionItems(FeatHeading, "feat", feat);
    SectionItems(FixHeading, "fix", fix);
    SectionItems(PerfHeading, "perf", perf);
    SectionItems(RefactorHeading, "refactor", refactor);
    assert Header(version)[0] == '#';
    assert Filter([Header(version)], IsItem) == [];
    FilterFour([Header(version)],
      SectionLines(FeatHeading, "feat", feat),
      SectionLines(FixHeading, "fix", fix),
      SectionLines(PerfHeading, "perf", perf),
      SectionLines(RefactorHeading, "refactor", refactor));
  }

  lemma FilterFour(header: seq<string>, a: seq<string>, b: seq<string>, c: seq<string>, d: seq<string>)
    requires Filter(header, IsItem) == []
    ensures Filter(header + a + b + c + d, IsItem)
         == Filter(a, IsItem) + Filter(b, IsItem) + Filter(c, IsItem) + Filter(d, IsItem)
  {
    var p1 := header + a;
    var p2 := p1 + b;
    var p3 := p2 + c;
    var fa, fb, fc, fd := Filter(a, IsItem), Filter(b, IsItem), Filter(c, IsItem), Filter(d, IsItem);
    FilterAppend(header, a, IsItem);
    assert Filter(p1, IsItem) == fa by {
      assert [] + fa == fa;
    }
    FilterAppend(p1, b, IsItem);
    FilterAppend(p2, c, IsItem);
    FilterAppend(p3, d, IsItem);
  }
}
