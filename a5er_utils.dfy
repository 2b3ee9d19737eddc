/** `a5er::unescape`: the A5:ER text format marks quoted values with `\q`,
    which reading drops. */
module A5erUtils {
  import opened Strings

  /** The text with every `\q` found scanning from the left removed. */
  function Unescaped(s: seq<char>): seq<char> {
    if s == [] then []
    else if |s| >= 2 && s[0] == '\\' && s[1] == 'q' then Unescaped(s[2..])
    else [s[0]] + Unescaped(s[1..])
  }

  /** How many `\q` pairs the left-to-right scan removes. */
  function RemovedPairs(s: seq<char>): nat {
    if s == [] then 0
    else if |s| >= 2 && s[0] == '\\' && s[1] == 'q' then 1 + RemovedPairs(s[2..])
    else RemovedPairs(s[1..])
  }

  method Unescape(s: seq<char>) returns (result: seq<char>)
    ensures result == Unescaped(s)
  {
    result := [];
    var i := 0;
    while i < |s|
      invariant 0 <= i <= |s|
      invariant Unescaped(s) == result + Unescaped(s[i..])
    {
      if s[i] == '\\' && i + 1 < |s| && s[i + 1] == 'q' {
        assert s[i..][2..] == s[i + 2..];
        i := i + 2;
      } else {
        assert s[i..][1..] == s[i + 1..];
        AppendAssoc(result, [s[i]], Unescaped(s[i + 1..]));
        result := result + [s[i]];
        i := i + 1;
      }
    }
  }

  /** Each removed pair takes two characters, so the result is never longer
      than the input. */
  lemma {:induction false} UnescapedLength(s: seq<char>)
    ensures |Unescaped(s)| + 2 * RemovedPairs(s) == |s|
    ensures |Unescaped(s)| <= |s|
  {
    if s != [] {
      if |s| >= 2 && s[0] == '\\' && s[1] == 'q' {
        UnescapedLength(s[2..]);
      } else {
        UnescapedLength(s[1..]);
      }
    }
  }

  /** Text without a backslash is left as it is. */
  lemma {:induction false} UnescapedPlain(s: seq<char>)
    requires '\\' !in s
    ensures Unescaped(s) == s
    ensures RemovedPairs(s) == 0
  {
    if s != [] {
      assert s[0] != '\\';
      assert '\\' !in s[1..] by {
        forall k | 0 <= k < |s[1..]| ensures s[1..][k] != '\\' {
          assert s[1..][k] == s[k + 1];
        }
      }
      UnescapedPlain(s[1..]);
      assert s == [s[0]] + s[1..];
    }
  }

  /** A value without backslashes between two `\q` markers reads as the
      value; `\q0\q` reads as `0`. */
  lemma QuotedValue(x: seq<char>)
    requires '\\' !in x
    ensures Unescaped("\\q" + x + "\\q") == x
  {
    var s := "\\q" + x + "\\q";
    assert s[2..] == x + "\\q";
    UnescapedTail(x, "\\q");
    UnescapedPlain(x);
    assert Unescaped("\\q") == [] by {
      assert "\\q"[2..] == [];
    }
  }

  lemma QuotedZero()
    ensures Unescaped("\\q0\\q") == "0"
  {
    QuotedValue("0");
  }

  /** Backslash-free text ahead of a tail is copied, and the tail is
      scanned on its own. */
  lemma {:induction false} UnescapedTail(x: seq<char>, t: seq<char>)
    requires '\\' !in x
    ensures Unescaped(x + t) == x + Unescaped(t)
    decreases |x|
  {
    if x == [] {
      assert x + t == t;
    } else {
      assert x[0] != '\\';
      assert (x + t)[1..] == x[1..] + t;
      assert '\\' !in x[1..] by {
        forall k | 0 <= k < |x[1..]| ensures x[1..][k] != '\\' {
          assert x[1..][k] == x[k + 1];
        }
      }
      UnescapedTail(x[1..], t);
      assert (x + t)[0] == x[0];
      calc {
        Unescaped(x + t);
        [x[0]] + Unescaped(x[1..] + t);
        [x[0]] + (x[1..] + Unescaped(t));
        { assert x == [x[0]] + x[1..]; }
        x + Unescaped(t);
      }
    }
  }

  /** A backslash at the very end has no `q` after it and is kept. */
  lemma {:induction false} TrailingBackslashKept(s: seq<char>)
    ensures Unescaped(s + "\\") == Unescaped(s) + "\\"
    decreases |s|
  {
    var t := s + "\\";
    if s == [] {
      assert t == "\\";
      assert t[1..] == [];
    } else if |s| >= 2 && s[0] == '\\' && s[1] == 'q' {
      assert t[2..] == s[2..] + "\\";
      TrailingBackslashKept(s[2..]);
    } else {
      assert t[1..] == s[1..] + "\\";
      assert !(|t| >= 2 && t[0] == '\\' && t[1] == 'q') by {
        if |s| == 1 { assert t[1] == '\\'; } else { assert t[1] == s[1]; }
      }
      TrailingBackslashKept(s[1..]);
    }
  }
}
