/**
 * The few `java.lang.String` operations the activity relies on, with Java's
 * semantics written out: `startsWith`, `trim`, `split("\n")`, `replace` of one
 * character by another, and the joining that a `StringBuilder` loop performs.
 * Strings are sequences of characters; nothing here depends on an encoding.
 */
module JavaStrings {

  /** `s.startsWith(p)`. */
  predicate StartsWith(s: string, p: string) {
    |p| <= |s| && s[..|p|] == p
  }

  /** `s.endsWith(p)`. */
  predicate EndsWith(s: string, p: string) {
    |p| <= |s| && s[|s| - |p|..] == p
  }

  /** The characters `String.trim` removes: every character up to U+0020. */
  predicate IsTrimmable(c: char) {
    c <= ' '
  }

  predicate AllTrimmable(s: string) {
    forall i :: 0 <= i < |s| ==> IsTrimmable(s[i])
  }

  /** `s` without its leading trimmable characters. */
  function TrimStart(s: string): string {
    if s != [] && IsTrimmable(s[0]) then TrimStart(s[1..]) else s
  }

  /** `s` without its trailing trimmable characters. */
  function TrimEnd(s: string): string {
    if s != [] && IsTrimmable(s[|s| - 1]) then TrimEnd(s[..|s| - 1]) else s
  }

  /** `s.trim()`: `s` without the trimmable characters at either end. */
  function Trim(s: string): string {
    TrimEnd(TrimStart(s))
  }

  /**
   * What `trim` removes: a run of trimmable characters at the front and one
   * at the back, leaving an infix that begins and ends with a character that
   * is not trimmable, or nothing.
   */
  lemma {:induction false} TrimStartRemovesLeadingRun(s: string)
    ensures var r := TrimStart(s);
      |r| <= |s| && r == s[|s| - |r|..] && AllTrimmable(s[..|s| - |r|])
      && (r == [] || !IsTrimmable(r[0]))
  {
    if s != [] && IsTrimmable(s[0]) {
      TrimStartRemovesLeadingRun(s[1..]);
      var r := TrimStart(s);
      assert s[..|s| - |r|] == [s[0]] + s[1..][..|s| - 1 - |r|];
    }
  }

  lemma {:induction false} TrimEndRemovesTrailingRun(s: string)
    ensures var r := TrimEnd(s);
      |r| <= |s| && r == s[..|r|] && AllTrimmable(s[|r|..])
      && (r == [] || !IsTrimmable(r[|r| - 1]))
  {
    if s != [] && IsTrimmable(s[|s| - 1]) {
      var p := s[..|s| - 1];
      TrimEndRemovesTrailingRun(p);
      var r := TrimEnd(s);
      assert s[|r|..] == p[|r|..] + [s[|s| - 1]];
    }
  }

  /** `trim` of a string made only of trimmable characters is empty. */
  lemma {:induction false} TrimOfBlank(s: string)
    requires AllTrimmable(s)
    ensures Trim(s) == ""
  {
    if s != [] {
      TrimOfBlank(s[1..]);
    }
  }

  /** Leading characters that `trim` removes do not change its result. */
  lemma {:induction false} TrimIgnoresIndentation(ws: string, s: string)
    requires AllTrimmable(ws)
    ensures Trim(ws + s) == Trim(s)
  {
    if ws != [] {
      assert (ws + s)[1..] == ws[1..] + s;
      TrimIgnoresIndentation(ws[1..], s);
    } else {
      assert ws + s == s;
    }
  }

  /** `TrimEnd` keeps every character up to the last one that is not trimmable. */
  lemma {:induction false} TrimEndKeeps(s: string, n: nat)
    requires 0 < n <= |s| && !IsTrimmable(s[n - 1])
    ensures n <= |TrimEnd(s)| && TrimEnd(s)[..n] == s[..n]
  {
    if IsTrimmable(s[|s| - 1]) {
      var p := s[..|s| - 1];
      TrimEndKeeps(p, n);
    }
  }

  /** A prefix made of non-trimmable characters survives `trim`. */
  lemma TrimKeepsSolidPrefix(s: string, p: string)
    requires p != [] && StartsWith(s, p)
    requires forall i :: 0 <= i < |p| ==> !IsTrimmable(p[i])
    ensures StartsWith(Trim(s), p)
  {
    assert s[..|p|] == p;
    assert !IsTrimmable(s[0]) && !IsTrimmable(s[|p| - 1]);
    assert TrimStart(s) == s;
    TrimEndKeeps(s, |p|);
  }

  /** Two prefixes that differ at some position cannot both begin `s`. */
  lemma PrefixesDiffer(s: string, p: string, q: string, i: nat)
    requires StartsWith(s, p) && i < |p| && i < |q| && p[i] != q[i]
    ensures !StartsWith(s, q)
  {
    assert s[..|p|][i] == s[i];
    if |q| <= |s| {
      assert s[..|q|][i] == s[i];
    }
  }

  /** The number of line feeds in `s`. */
  function NewlineCount(s: string): nat {
    multiset(s)['\n']
  }

  /**
   * The pieces of `s` between line feeds, all of them kept: `"a\n"` has the
   * pieces `"a"` and `""`, and `""` has the single piece `""`.
   */
  function RawSplit(s: string): (r: seq<string>)
    ensures |r| >= 1
  {
    if s == [] then [""]
    else
      var rest := RawSplit(s[1..]);
      if s[0] == '\n' then [""] + rest
      else [[s[0]] + rest[0]] + rest[1..]
  }

  /** `xs` without its trailing empty strings. */
  function DropTrailingEmpty(xs: seq<string>): (r: seq<string>)
    ensures |r| <= |xs| && r == xs[..|r|]
    ensures forall k :: |r| <= k < |xs| ==> xs[k] == ""
    ensures r == [] || r[|r| - 1] != ""
  {
    if xs != [] && xs[|xs| - 1] == "" then DropTrailingEmpty(xs[..|xs| - 1]) else xs
  }

  /** `s` without its trailing line feeds. */
  function DropTrailingNewlines(s: string): (r: string)
    ensures |r| <= |s| && r == s[..|r|]
    ensures forall i :: |r| <= i < |s| ==> s[i] == '\n'
    ensures r == [] || r[|r| - 1] != '\n'
  {
    if s != [] && s[|s| - 1] == '\n' then DropTrailingNewlines(s[..|s| - 1]) else s
  }

  /**
   * `s.split("\n")`: Java returns the whole input when the pattern never
   * matches (so `""` gives `[""]`) and otherwise drops the trailing empty
   * pieces (so `"\n"` gives no piece at all).
   */
  function Split(s: string): (r: seq<string>)
    ensures s == [] ==> r == [""]
    ensures s != [] ==> r == [] || r[|r| - 1] != ""
  {
    if s == [] then [""] else DropTrailingEmpty(RawSplit(s))
  }

  /** No piece holds a line feed. */
  lemma {:induction false} RawSplitPieces(s: string)
    ensures forall k :: 0 <= k < |RawSplit(s)| ==> '\n' !in RawSplit(s)[k]
  {
    if s != [] {
      RawSplitPieces(s[1..]);
    }
  }

  /** No line that `split("\n")` returns holds a line feed. */
  lemma SplitPieces(s: string)
    ensures forall k :: 0 <= k < |Split(s)| ==> '\n' !in Split(s)[k]
  {
    if s != [] {
      RawSplitPieces(s);
    }
  }

  /**
   * What a `StringBuilder` holds after appending the elements of `xs` with a
   * `"\n"` before every element but the first.
   */
  function Join(xs: seq<string>): string {
    if |xs| == 0 then ""
    else if |xs| == 1 then xs[0]
    else xs[0] + "\n" + Join(xs[1..])
  }

  /** One more element appended to the builder. */
  lemma {:induction false} JoinSnoc(xs: seq<string>, x: string)
    requires xs != []
    ensures Join(xs + [x]) == Join(xs) + "\n" + x
  {
    if |xs| > 1 {
      assert (xs + [x])[1..] == xs[1..] + [x];
      JoinSnoc(xs[1..], x);
    }
  }

  /** The builder's text begins with the first element and ends with the last. */
  lemma {:induction false} JoinEnds(xs: seq<string>)
    requires xs != []
    ensures StartsWith(Join(xs), xs[0])
    ensures EndsWith(Join(xs), xs[|xs| - 1])
  {
    if |xs| > 1 {
      JoinEnds(xs[1..]);
    }
  }

  /** Joining the pieces of `s` with line feeds gives `s` back. */
  lemma {:induction false} JoinRawSplit(s: string)
    ensures Join(RawSplit(s)) == s
  {
    if s != [] {
      var rest := RawSplit(s[1..]);
      JoinRawSplit(s[1..]);
      if s[0] == '\n' {
        assert ([""] + rest)[1..] == rest;
      } else {
        var r := [[s[0]] + rest[0]] + rest[1..];
        assert r[1..] == rest[1..];
        if |rest| > 1 {
          assert Join(rest) == rest[0] + "\n" + Join(rest[1..]);
        }
      }
    }
  }

  /** Cutting a joined sequence of line-feed-free strings gives the sequence back. */
  lemma {:induction false} RawSplitJoin(xs: seq<string>)
    requires xs != []
    requires forall k :: 0 <= k < |xs| ==> '\n' !in xs[k]
    ensures RawSplit(Join(xs)) == xs
  {
    if |xs| == 1 {
      RawSplitOfLine(xs[0]);
    } else {
      RawSplitJoin(xs[1..]);
      RawSplitLineThenRest(xs[0], Join(xs[1..]));
      assert xs[0] + "\n" + Join(xs[1..]) == xs[0] + ['\n'] + Join(xs[1..]);
      assert [xs[0]] + xs[1..] == xs;
    }
  }

  lemma {:induction false} RawSplitOfLine(x: string)
    requires '\n' !in x
    ensures RawSplit(x) == [x]
  {
    if x != [] {
      RawSplitOfLine(x[1..]);
      assert [x[0]] + x[1..] == x;
    }
  }

  lemma {:induction false} RawSplitLineThenRest(x: string, rest: string)
    requires '\n' !in x
    ensures RawSplit(x + ['\n'] + rest) == [x] + RawSplit(rest)
  {
    var s := x + ['\n'] + rest;
    if x == [] {
      assert s[1..] == rest;
    } else {
      assert s[1..] == x[1..] + ['\n'] + rest;
      RawSplitLineThenRest(x[1..], rest);
      assert [x[0]] + x[1..] == x;
    }
  }

  /** A line feed at the end of `s` adds one empty piece. */
  lemma {:induction false} RawSplitNewlineAtEnd(s: string)
    ensures RawSplit(s + "\n") == RawSplit(s) + [""]
  {
    if s == [] {
      assert (s + "\n")[1..] == [];
    } else {
      assert (s + "\n")[1..] == s[1..] + "\n";
      RawSplitNewlineAtEnd(s[1..]);
    }
  }

  /** The last piece of `s` is empty exactly when `s` is empty or ends with a line feed. */
  lemma {:induction false} RawSplitLastPiece(s: string)
    ensures var r := RawSplit(s);
      r[|r| - 1] == "" <==> s == [] || s[|s| - 1] == '\n'
  {
    if s != [] {
      RawSplitLastPiece(s[1..]);
    }
  }

  /**
   * `split("\n")` followed by joining with line feeds loses exactly the
   * trailing line feeds of the input.
   */
  lemma {:induction false} JoinSplit(s: string)
    ensures Join(Split(s)) == DropTrailingNewlines(s)
    decreases |s|
  {
    if s != [] {
      if s[|s| - 1] == '\n' {
        var p := s[..|s| - 1];
        assert p + "\n" == s;
        RawSplitNewlineAtEnd(p);
        var rp := RawSplit(p);
        assert (rp + [""])[..|rp|] == rp;
        if p != [] {
          JoinSplit(p);
        } else {
          assert DropTrailingEmpty(rp) == [];
        }
      } else {
        RawSplitLastPiece(s);
        JoinRawSplit(s);
      }
    }
  }

  lemma NewlineCountAppend(a: string, b: string)
    ensures NewlineCount(a + b) == NewlineCount(a) + NewlineCount(b)
  {
    assert multiset(a + b) == multiset(a) + multiset(b);
  }

  lemma NewlineCountOfLine(x: string)
    requires '\n' !in x
    ensures NewlineCount(x) == 0
  {
  }

  /** The line feeds held by the elements of `xs`, all together. */
  function NewlinesIn(xs: seq<string>): nat {
    if xs == [] then 0 else NewlinesIn(xs[..|xs| - 1]) + NewlineCount(xs[|xs| - 1])
  }

  /** Joining adds one line feed between each two elements and no other. */
  lemma {:induction false} JoinNewlineCount(xs: seq<string>)
    requires xs != []
    ensures NewlineCount(Join(xs)) == |xs| - 1 + NewlinesIn(xs)
  {
    if |xs| == 1 {
      assert xs[..0] == [];
    } else {
      var init := xs[..|xs| - 1];
      var last := xs[|xs| - 1];
      JoinNewlineCount(init);
      assert init + [last] == xs;
      JoinSnoc(init, last);
      NewlineCountAppend(Join(init) + "\n", last);
      NewlineCountAppend(Join(init), "\n");
      assert multiset("\n") == multiset{'\n'};
    }
  }

  /** The last character of a joined text is that of the last element, when it has one. */
  lemma JoinLastChar(xs: seq<string>)
    requires xs != [] && xs[|xs| - 1] != ""
    ensures var j := Join(xs); var last := xs[|xs| - 1];
      j != "" && j[|j| - 1] == last[|last| - 1]
  {
    JoinEnds(xs);
  }

  /** Lines joined and ended with a line feed split back into those lines. */
  lemma SplitJoinedLines(xs: seq<string>)
    requires xs != [] && xs[|xs| - 1] != ""
    requires forall k :: 0 <= k < |xs| ==> '\n' !in xs[k]
    ensures Split(Join(xs) + "\n") == xs
  {
    RawSplitNewlineAtEnd(Join(xs));
    RawSplitJoin(xs);
    assert (xs + [""])[..|xs|] == xs;
  }

  /** The number of pieces is one more than the number of line feeds. */
  lemma {:induction false} RawSplitCount(s: string)
    ensures |RawSplit(s)| == 1 + NewlineCount(s)
  {
    if s != [] {
      RawSplitCount(s[1..]);
      assert s == [s[0]] + s[1..];
      assert multiset(s) == multiset([s[0]]) + multiset(s[1..]);
    }
  }

  /** `s.replace(a, b)` for one-character `a` and `b`. */
  function ReplaceChar(s: string, a: char, b: char): (r: string)
    ensures |r| == |s|
    ensures a != b ==> a !in r
  {
    seq(|s|, i requires 0 <= i < |s| => if s[i] == a then b else s[i])
  }

  /** Replacing `a` by `b` and then `b` by `a` restores a string that had no `b`. */
  lemma ReplaceCharRoundTrip(s: string, a: char, b: char)
    requires b !in s
    ensures ReplaceChar(ReplaceChar(s, a, b), b, a) == s
  {
    var r := ReplaceChar(ReplaceChar(s, a, b), b, a);
    assert forall i :: 0 <= i < |s| ==> r[i] == s[i] by {
      forall i | 0 <= i < |s| ensures r[i] == s[i] {
        assert s[i] != b;
      }
    }
  }
}
