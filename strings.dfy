/** Character and string vocabulary shared by the text-building code of the
    backend: C-locale character classes, ASCII case mapping, searching,
    splitting, joining, decimal rendering of integers, and the
    "escape every character through a table" scheme that every escaper of the
    code base (SQL literals, LIKE patterns, bracket identifiers, ODBC values,
    JSON strings) follows. */
module Strings {
  import opened Wrappers

  // ---------------------------------------------------------------------------
  // Character classes ("C" locale, as `std::isspace` / `std::toupper` see them)
  // ---------------------------------------------------------------------------

  predicate IsSpace(c: char) {
    c == ' ' || c == '\t' || c == '\n' || c == '\U{B}' || c == '\U{C}' || c == '\r'
  }

  predicate IsDigit(c: char) { '0' <= c <= '9' }

  predicate IsAsciiLetter(c: char) { 'a' <= c <= 'z' || 'A' <= c <= 'Z' }

  function UpperChar(c: char): char {
    if 'a' <= c <= 'z' then (c as int - 32) as char else c
  }

  function LowerChar(c: char): char {
    if 'A' <= c <= 'Z' then (c as int + 32) as char else c
  }

  function Upper(s: seq<char>): seq<char> {
    seq(|s|, i requires 0 <= i < |s| => UpperChar(s[i]))
  }

  function Lower(s: seq<char>): seq<char> {
    seq(|s|, i requires 0 <= i < |s| => LowerChar(s[i]))
  }

  /** Upper-casing twice is upper-casing once, and it commutes with taking
      a slice. */
  lemma UpperIdempotent(s: seq<char>)
    ensures Upper(Upper(s)) == Upper(s)
  {
    assert forall i :: 0 <= i < |s| ==> Upper(Upper(s))[i] == Upper(s)[i];
  }

  lemma UpperSlice(s: seq<char>, a: nat, b: nat)
    requires a <= b <= |s|
    ensures Upper(s)[a..b] == Upper(s[a..b])
  {
    assert forall i :: 0 <= i < b - a ==> Upper(s)[a..b][i] == Upper(s[a..b])[i];
  }

  // ---------------------------------------------------------------------------
  // Searching
  // ---------------------------------------------------------------------------

  predicate StartsWith(s: seq<char>, prefix: seq<char>) {
    |prefix| <= |s| && s[..|prefix|] == prefix
  }

  predicate EndsWith(s: seq<char>, suffix: seq<char>) {
    |suffix| <= |s| && s[|s| - |suffix|..] == suffix
  }

  /** `std::string::find(sub) != npos` */
  predicate Contains(s: seq<char>, sub: seq<char>) {
    exists i :: 0 <= i <= |s| && StartsWith(s[i..], sub)
  }

  /** `std::string::find(c)`: the first position of `c`, if any. */
  function IndexOf(s: seq<char>, c: char): (r: Option<nat>)
    ensures r.Some? ==> r.value < |s| && s[r.value] == c && c !in s[..r.value]
    ensures r.None? <==> c !in s
  {
    if s == [] then None
    else if s[0] == c then Some(0)
    else
      match IndexOf(s[1..], c)
      case None => None
      case Some(k) => assert s[1..][..k] == s[1..k + 1]; Some(k + 1)
  }

  /** A position holding `c` with no `c` before it is what `IndexOf`
      finds. */
  lemma IndexOfAt(s: seq<char>, c: char, k: nat)
    requires k < |s| && s[k] == c && c !in s[..k]
    ensures IndexOf(s, c) == Some(k)
  {
    assert c in s;
  }

  /** `std::string::rfind(c)`: the last position of `c`, if any. */
  function LastIndexOf(s: seq<char>, c: char): (r: Option<nat>)
    ensures r.Some? ==> r.value < |s| && s[r.value] == c && c !in s[r.value + 1..]
    ensures r.None? <==> c !in s
  {
    if s == [] then None
    else if s[|s| - 1] == c then Some(|s| - 1)
    else
      var r := LastIndexOf(s[..|s| - 1], c);
      assert r.Some? ==> s[r.value + 1..] == s[..|s| - 1][r.value + 1..] + [s[|s| - 1]];
      assert r.None? ==> s == s[..|s| - 1] + [s[|s| - 1]];
      r
  }

  /** A character with no copy after it is the last occurrence. */
  lemma {:induction false} LastIndexOfAt(s: seq<char>, c: char, d: nat)
    requires d < |s| && s[d] == c
    requires forall k :: d < k < |s| ==> s[k] != c
    ensures LastIndexOf(s, c) == Some(d)
  {
    if d < |s| - 1 {
      LastIndexOfAt(s[..|s| - 1], c, d);
    }
  }

  function CountChar(s: seq<char>, c: char): nat {
    if s == [] then 0 else (if s[0] == c then 1 else 0) + CountChar(s[1..], c)
  }

  lemma SliceOfSlice(w: seq<char>, a: nat, b: nat, c: nat, d: nat)
    requires a <= b <= |w| && c <= d <= b - a
    ensures w[a..b][c..d] == w[a + c..a + d]
  {
    assert forall k :: 0 <= k < d - c ==> w[a..b][c..d][k] == w[a + c..a + d][k];
  }

  // ---------------------------------------------------------------------------
  // Text at a position (how a reader sees what a writer put there)
  // ---------------------------------------------------------------------------

  /** `t` holds `w` from position `i` on. */
  predicate At(t: seq<char>, i: nat, w: seq<char>) {
    i + |w| <= |t| && t[i..i + |w|] == w
  }

  /** Where `a + b` is, `a` is, and `b` right after it. */
  lemma AtSplit(t: seq<char>, i: nat, a: seq<char>, b: seq<char>)
    requires At(t, i, a + b)
    ensures At(t, i, a) && At(t, i + |a|, b)
  {
    var n := |a| + |b|;
    SliceOfSlice(t, i, i + n, 0, |a|);
    SliceOfSlice(t, i, i + n, |a|, n);
    assert (a + b)[..|a|] == a;
    assert (a + b)[|a|..] == b;
  }

  lemma AtChar(t: seq<char>, i: nat, w: seq<char>, k: nat)
    requires At(t, i, w) && k < |w|
    ensures t[i + k] == w[k]
  {
    assert t[i..i + |w|][k] == t[i + k];
  }

  /** Where `a`, a separator and `b` are, each of them is. */
  lemma AtSeparated(t: seq<char>, i: nat, a: seq<char>, sep: char, b: seq<char>)
    requires At(t, i, a + ([sep] + b))
    ensures At(t, i, a) && i + |a| < |t| && t[i + |a|] == sep && At(t, i + |a| + 1, b)
  {
    AtSplit(t, i, a, [sep] + b);
    AtSplit(t, i + |a|, [sep], b);
    AtChar(t, i + |a|, [sep], 0);
  }

  // ---------------------------------------------------------------------------
  // Splitting and joining
  // ---------------------------------------------------------------------------

  /** Every piece between occurrences of `sep`, empty pieces included
      (`std::views::split`, `std::getline` over a whole string, Python's
      `str.split(sep)`). */
  function SplitOn(s: seq<char>, sep: char): (parts: seq<seq<char>>)
    ensures |parts| >= 1
  {
    if s == [] then [[]]
    else
      var rest := SplitOn(s[1..], sep);
      if s[0] == sep then [[]] + rest else [[s[0]] + rest[0]] + rest[1..]
  }

  /** The pieces joined with one `sep` between consecutive pieces; the empty
      list joins to the empty string. */
  function Join(parts: seq<seq<char>>, sep: seq<char>): seq<char> {
    if parts == [] then []
    else if |parts| == 1 then parts[0]
    else parts[0] + sep + Join(parts[1..], sep)
  }

  lemma {:induction false} SplitOnJoin(s: seq<char>, sep: char)
    ensures Join(SplitOn(s, sep), [sep]) == s
    ensures forall k :: 0 <= k < |SplitOn(s, sep)| ==> sep !in SplitOn(s, sep)[k]
    ensures |SplitOn(s, sep)| == CountChar(s, sep) + 1
  {
    if s != [] {
      SplitOnJoin(s[1..], sep);
      var rest := SplitOn(s[1..], sep);
      if s[0] == sep {
        assert SplitOn(s, sep) == [[]] + rest;
        assert Join([[]] + rest, [sep]) == [] + [sep] + Join(rest, [sep]);
        assert s == [sep] + s[1..];
      } else {
        var parts := SplitOn(s, sep);
        assert parts == [[s[0]] + rest[0]] + rest[1..];
        if |rest| == 1 {
          assert Join(parts, [sep]) == [s[0]] + rest[0];
        } else {
          assert parts[1..] == rest[1..];
          assert Join(parts, [sep]) == [s[0]] + rest[0] + [sep] + Join(rest[1..], [sep]);
          assert Join(rest, [sep]) == rest[0] + [sep] + Join(rest[1..], [sep]);
        }
        assert s == [s[0]] + s[1..];
        forall k | 0 <= k < |parts| ensures sep !in parts[k] {
          if k > 0 { assert parts[k] == rest[k]; }
        }
      }
    }
  }

  /** Appending one more piece to a non-empty list of pieces. */
  lemma {:induction false} JoinSnoc(parts: seq<seq<char>>, x: seq<char>, sep: seq<char>)
    requires parts != []
    ensures Join(parts + [x], sep) == Join(parts, sep) + sep + x
    decreases |parts|
  {
    if |parts| == 1 {
      assert parts + [x] == [parts[0], x];
    } else {
      assert (parts + [x])[1..] == parts[1..] + [x];
      JoinSnoc(parts[1..], x, sep);
    }
  }

  /** The first piece starts the joined text. */
  lemma JoinPrefix(parts: seq<seq<char>>, sep: seq<char>)
    requires parts != []
    ensures |Join(parts, sep)| >= |parts[0]| && Join(parts, sep)[..|parts[0]|] == parts[0]
  {
    if |parts| > 1 {
      assert Join(parts, sep) == parts[0] + (sep + Join(parts[1..], sep));
    }
  }

  /** Splitting at a separator that comes right after `a`, which holds
      none, gives `a` and then the pieces of the rest. */
  lemma {:induction false} SplitOnCons(a: seq<char>, sep: char, b: seq<char>)
    requires sep !in a
    ensures SplitOn(a + [sep] + b, sep) == [a] + SplitOn(b, sep)
    decreases |a|
  {
    var s := a + [sep] + b;
    if a == [] {
      assert s == [sep] + b;
      assert s[1..] == b;
    } else {
      assert s[1..] == a[1..] + [sep] + b;
      SplitOnCons(a[1..], sep, b);
      assert [a[0]] + a[1..] == a;
    }
  }

  /** Joining separator-free pieces and splitting again gives the pieces
      back. */
  lemma {:induction false} JoinSplitOn(parts: seq<seq<char>>, sep: char)
    requires parts != []
    requires forall k :: 0 <= k < |parts| ==> sep !in parts[k]
    ensures SplitOn(Join(parts, [sep]), sep) == parts
    decreases |parts|
  {
    if |parts| == 1 {
      SplitOnAbsent(parts[0], sep);
    } else {
      JoinSplitOn(parts[1..], sep);
      SplitOnCons(parts[0], sep, Join(parts[1..], [sep]));
      assert parts == [parts[0]] + parts[1..];
    }
  }

  lemma SplitOnAbsent(s: seq<char>, sep: char)
    requires sep !in s
    ensures SplitOn(s, sep) == [s]
  {
    SplitOnJoin(s, sep);
    if |SplitOn(s, sep)| > 1 {
      assert CountChar(s, sep) > 0;
      CountCharPositive(s, sep);
      assert false;
    }
  }

  lemma {:induction false} CountCharPositive(s: seq<char>, c: char)
    requires CountChar(s, c) > 0
    ensures c in s
  {
    if s[0] != c {
      CountCharPositive(s[1..], c);
    }
  }

  // ---------------------------------------------------------------------------
  // Escaping through a per-character table
  // ---------------------------------------------------------------------------

  /** The concatenation of `f(c)` over the characters `c` of `s`, in order:
      the shape of every `for (char c : s) result += table(c);` loop. It is
      defined from the right so that it follows such a loop step by step. */
  function MapConcat(s: seq<char>, f: char -> seq<char>): seq<char> {
    if s == [] then [] else MapConcat(s[..|s| - 1], f) + f(s[|s| - 1])
  }

  /** One iteration of an escaping loop. */
  lemma MapConcatStep(s: seq<char>, i: nat, f: char -> seq<char>)
    requires i < |s|
    ensures MapConcat(s[..i + 1], f) == MapConcat(s[..i], f) + f(s[i])
  {
    assert s[..i + 1][..i] == s[..i];
  }

  lemma {:induction false} MapConcatAppend(a: seq<char>, b: seq<char>, f: char -> seq<char>)
    ensures MapConcat(a + b, f) == MapConcat(a, f) + MapConcat(b, f)
    decreases |b|
  {
    if b == [] {
      assert a + b == a;
    } else {
      var b' := b[..|b| - 1];
      assert (a + b)[..|a + b| - 1] == a + b';
      MapConcatAppend(a, b', f);
    }
  }

  lemma MapConcatCons(x: char, t: seq<char>, f: char -> seq<char>)
    ensures MapConcat([x] + t, f) == f(x) + MapConcat(t, f)
  {
    MapConcatAppend([x], t, f);
    assert [x][..0] == [];
  }

  /** A table that copies every character it is given. */
  lemma {:induction false} MapConcatIdentity(s: seq<char>, f: char -> seq<char>)
    requires forall i :: 0 <= i < |s| ==> f(s[i]) == [s[i]]
    ensures MapConcat(s, f) == s
  {
    if s != [] {
      var t, x := s[..|s| - 1], s[|s| - 1];
      forall i | 0 <= i < |t| ensures f(t[i]) == [t[i]] {
        assert t[i] == s[i];
      }
      MapConcatIdentity(t, f);
      calc {
        MapConcat(s, f);
        MapConcat(t, f) + f(x);
        t + [x];
        { assert s == t + [x]; }
        s;
      }
    }
  }

  /** `f` doubles `c` and copies every other character. */
  predicate DoublesOnly(f: char -> seq<char>, c: char) {
    forall x :: f(x) == if x == c then [c, c] else [x]
  }

  /** Reading a doubled-delimiter text back, left to right: `cc` stands for
      one `c`, every other character stands for itself. */
  function Undoubled(s: seq<char>, c: char): seq<char> {
    if s == [] then []
    else if s[0] == c && |s| > 1 && s[1] == c then [c] + Undoubled(s[2..], c)
    else [s[0]] + Undoubled(s[1..], c)
  }

  lemma AppendAssoc(a: seq<char>, b: seq<char>, c: seq<char>)
    ensures (a + b) + c == a + (b + c)
  {
  }

  /** `Undoubled` of `s[i..end]`, read by position, as a loop reads it. */
  function UndoubledRange(s: seq<char>, c: char, i: nat, end: nat): seq<char>
    requires i <= end <= |s|
    decreases end - i
  {
    if i == end then []
    else if s[i] == c && i + 1 < end && s[i + 1] == c then [c] + UndoubledRange(s, c, i + 2, end)
    else [s[i]] + UndoubledRange(s, c, i + 1, end)
  }

  lemma {:induction false} UndoubledRangeSlice(s: seq<char>, c: char, i: nat, end: nat)
    requires i <= end <= |s|
    ensures UndoubledRange(s, c, i, end) == Undoubled(s[i..end], c)
    decreases end - i
  {
    if i < end {
      assert s[i..end][1..] == s[i + 1..end];
      if s[i] == c && i + 1 < end && s[i + 1] == c {
        assert s[i..end][2..] == s[i + 2..end];
        UndoubledRangeSlice(s, c, i + 2, end);
      } else {
        UndoubledRangeSlice(s, c, i + 1, end);
      }
    }
  }

  lemma {:induction false} UndoubledShorter(s: seq<char>, c: char)
    ensures |Undoubled(s, c)| <= |s|
  {
    if s != [] {
      if s[0] == c && |s| > 1 && s[1] == c {
        UndoubledShorter(s[2..], c);
      } else {
        UndoubledShorter(s[1..], c);
      }
    }
  }

  lemma {:induction false} UndoubleDoubled(s: seq<char>, c: char, f: char -> seq<char>)
    requires DoublesOnly(f, c)
    ensures Undoubled(MapConcat(s, f), c) == s
    ensures |MapConcat(s, f)| == |s| + CountChar(s, c)
  {
    if s != [] {
      MapConcatCons(s[0], s[1..], f);
      assert s == [s[0]] + s[1..];
      UndoubleDoubled(s[1..], c, f);
      var rest := MapConcat(s[1..], f);
      if s[0] == c {
        assert MapConcat(s, f) == [c, c] + rest;
        assert ([c, c] + rest)[2..] == rest;
      } else {
        assert MapConcat(s, f) == [s[0]] + rest;
        assert ([s[0]] + rest)[1..] == rest;
      }
    }
  }

  // ---------------------------------------------------------------------------
  // Decimal rendering (`std::to_string`, `std::format("{}")` of an integer)
  // ---------------------------------------------------------------------------

  function DigitChar(d: nat): char
    requires d < 10
  {
    "0123456789"[d]
  }

  function DigitValue(c: char): nat {
    if IsDigit(c) then c as int - '0' as int else 0
  }

  function NatToString(n: nat): seq<char>
    decreases n
  {
    if n < 10 then [DigitChar(n)] else NatToString(n / 10) + [DigitChar(n % 10)]
  }

  function IntToString(i: int): seq<char> {
    if i < 0 then "-" + NatToString(-i) else NatToString(i)
  }

  /** The value of a string of decimal digits. */
  function DigitsValue(s: seq<char>): nat {
    if s == [] then 0 else DigitsValue(s[..|s| - 1]) * 10 + DigitValue(s[|s| - 1])
  }

  /** Decimal rendering is non-empty, made of digits, and read back exactly;
      hence two different numbers never render the same. */
  lemma {:induction false} NatToStringRoundTrip(n: nat)
    ensures |NatToString(n)| > 0
    ensures forall k :: 0 <= k < |NatToString(n)| ==> IsDigit(NatToString(n)[k])
    ensures DigitsValue(NatToString(n)) == n
    decreases n
  {
    DigitRoundTrip(n % 10);
    if n >= 10 {
      NatToStringRoundTrip(n / 10);
      var s, init := NatToString(n), NatToString(n / 10);
      assert s == init + [DigitChar(n % 10)];
      assert s[..|s| - 1] == init;
      assert DigitsValue(s) == DigitsValue(init) * 10 + DigitValue(DigitChar(n % 10));
    } else {
      assert n % 10 == n;
    }
  }

  lemma DigitRoundTrip(d: nat)
    requires d < 10
    ensures IsDigit(DigitChar(d)) && DigitValue(DigitChar(d)) == d
  {
  }

  lemma NatToStringInjective(n: nat, m: nat)
    requires n != m
    ensures NatToString(n) != NatToString(m)
  {
    NatToStringRoundTrip(n);
    NatToStringRoundTrip(m);
  }

  /** A prefix followed by a rendered number identifies the number: the shape
      of every generated id (`conn_N`, `query_N`, `profile_N`). */
  lemma PrefixedNumberInjective(prefix: seq<char>, n: nat, m: nat)
    requires n != m
    ensures prefix + NatToString(n) != prefix + NatToString(m)
  {
    NatToStringInjective(n, m);
    assert (prefix + NatToString(n))[|prefix|..] == NatToString(n);
    assert (prefix + NatToString(m))[|prefix|..] == NatToString(m);
  }

  // ---------------------------------------------------------------------------
  // Streams of lines
  // ---------------------------------------------------------------------------

  /** The pieces `std::getline` reads from a stream over `s` with the
      delimiter `sep`: every piece between delimiters, except that a
      delimiter at the very end does not start one more, empty, piece, and
      the empty text has no piece at all. */
  function GetlinePieces(s: seq<char>, sep: char): (r: seq<seq<char>>)
    ensures s == [] ==> r == []
  {
    var parts := SplitOn(s, sep);
    if parts[|parts| - 1] == [] then parts[..|parts| - 1] else parts
  }

  /** Lines that hold no delimiter, each written with a delimiter after
      it, are read back as the same lines. */
  lemma GetlineLines(lines: seq<seq<char>>, sep: char)
    requires forall k :: 0 <= k < |lines| ==> sep !in lines[k]
    ensures GetlinePieces(Join(lines + [[]], [sep]), sep) == lines
  {
    if lines == [] {
      assert lines + [[]] == [[]];
    } else {
      var parts := lines + [[]];
      assert forall k :: 0 <= k < |parts| ==> sep !in parts[k] by {
        forall k | 0 <= k < |parts| ensures sep !in parts[k] {
          if k < |lines| { assert parts[k] == lines[k]; }
        }
      }
      JoinSplitOn(parts, sep);
      assert parts[..|parts| - 1] == lines;
    }
  }

  /** Pieces written out one after the other (an `ostringstream` that
      receives them in order). */
  function Concat(parts: seq<seq<char>>): seq<char> {
    if parts == [] then [] else Concat(parts[..|parts| - 1]) + parts[|parts| - 1]
  }

  /** One more piece written. */
  lemma ConcatSnoc(parts: seq<seq<char>>, i: nat)
    requires i < |parts|
    ensures Concat(parts[..i + 1]) == Concat(parts[..i]) + parts[i]
  {
    assert parts[..i + 1][..i] == parts[..i];
  }
}
