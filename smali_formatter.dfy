/**
 * The smali reformatter of the activity. The text is cut into lines; an
 * "inside a method" flag is carried down the lines, raised by a line that
 * starts with `.method` and lowered by one that starts with `.end method`;
 * while it is raised, every line that is not a line-number directive, a label
 * or a prologue marker gets a blank line after it. The lines are then joined
 * back with line feeds.
 */
module SmaliFormatter {
  import opened JavaStrings

  /** The prefixes, tested on the trimmed line, of the lines that get no blank line. */
  const SkipPrefixes: seq<string> := [".line", ":", ".prologue"]

  /** The line, once trimmed, is a line-number directive, a label or a prologue marker. */
  predicate IsSkipLine(line: string) {
    var t := Trim(line);
    StartsWith(t, ".line") || StartsWith(t, ":") || StartsWith(t, ".prologue")
  }

  /** `shouldSkip`: tries the prefixes in order and stops at the first that matches. */
  method ShouldSkip(line: string) returns (skip: bool)
    ensures skip <==> IsSkipLine(line)
  {
    var ops := SkipPrefixes;
    var t := Trim(line);
    for i := 0 to |ops|
      invariant forall j :: 0 <= j < i ==> !StartsWith(t, ops[j])
    {
      if StartsWith(t, ops[i]) {
        return true;
      }
    }
    assert ops[0] == ".line" && ops[1] == ":" && ops[2] == ".prologue";
    return false;
  }

  /**
   * The flag once the loop has looked at `line`, given its value before: raised
   * by a `.method` line, lowered by an `.end method` line, kept by any other.
   */
  function Step(inside: bool, line: string): (r: bool)
    ensures StartsWith(line, ".method") ==> r
    ensures StartsWith(line, ".end method") ==> !r
    ensures !StartsWith(line, ".method") && !StartsWith(line, ".end method") ==> r == inside
  {
    var raised := if StartsWith(line, ".method") then true else inside;
    if StartsWith(line, ".end method") then
      assert line[1] == line[..11][1] == 'e';
      false
    else raised
  }

  /** The flag in force while line `k` of `lines` is formatted. */
  function InsideAt(lines: seq<string>, k: nat): bool
    requires k < |lines|
  {
    Step(if k == 0 then false else InsideAt(lines, k - 1), lines[k])
  }

  /** Line `k` gets a blank line after it. */
  predicate Padded(lines: seq<string>, k: nat)
    requires k < |lines|
  {
    InsideAt(lines, k) && !IsSkipLine(lines[k])
  }

  /** The lines after the first loop of `formatSmali`. */
  function Reformatted(lines: seq<string>): (r: seq<string>)
    ensures |r| == |lines|
  {
    seq(|lines|, k requires 0 <= k < |lines| => if Padded(lines, k) then lines[k] + "\n" else lines[k])
  }

  /** The number of lines among the first `n` that get a blank line. */
  function PaddedCount(lines: seq<string>, n: nat): nat
    requires n <= |lines|
  {
    if n == 0 then 0 else PaddedCount(lines, n - 1) + (if Padded(lines, n - 1) then 1 else 0)
  }

  /** Each line with the blank line the formatter may have put after it removed. */
  function Unpadded(lines: seq<string>): (r: seq<string>)
    ensures |r| == |lines|
  {
    seq(|lines|, k requires 0 <= k < |lines| =>
      var l := lines[k];
      if l != [] && l[|l| - 1] == '\n' then l[..|l| - 1] else l)
  }

  /**
   * `formatSmali`: cuts the text into lines, pads the lines of method bodies
   * and joins the lines again.
   */
  method FormatSmali(input: string) returns (output: string)
    ensures output == Join(Reformatted(Split(input)))
  {
    var parts := Split(input);
    var lines := new string[|parts|](i requires 0 <= i < |parts| => parts[i]);
    assert lines[..] == parts;
    PadMethodBodies(lines);
    output := JoinLines(lines);
  }

  /**
   * The first loop of `formatSmali`: walks the lines with the
   * `insideMethod` flag and appends a line feed, in place, to every line of
   * a method body that is not skipped.
   */
  method PadMethodBodies(lines: array<string>)
    modifies lines
    ensures lines[..] == Reformatted(old(lines[..]))
  {
    ghost var parts := lines[..];
    var insideMethod := false;
    for i := 0 to lines.Length
      invariant forall k :: 0 <= k < i ==> lines[k] == Reformatted(parts)[k]
      invariant forall k :: i <= k < lines.Length ==> lines[k] == parts[k]
      invariant insideMethod == (i > 0 && InsideAt(parts, i - 1))
    {
      var line := lines[i];
      if StartsWith(line, ".method") {
        insideMethod := true;
      }
      if StartsWith(line, ".end method") {
        insideMethod := false;
      }
      if insideMethod {
        var skip := ShouldSkip(line);
        if !skip {
          lines[i] := line + "\n";
        }
      }
    }
  }

  /** The second loop of `formatSmali`: the lines appended to a builder, a line feed before all but the first. */
  method JoinLines(lines: array<string>) returns (text: string)
    ensures text == Join(lines[..])
  {
    text := "";
    for i := 0 to lines.Length
      invariant text == Join(lines[..i])
    {
      if i != 0 {
        text := text + "\n";
        JoinSnoc(lines[..i], lines[i]);
      }
      text := text + lines[i];
      assert lines[..i + 1] == lines[..i] + [lines[i]];
    }
    assert lines[..lines.Length] == lines[..];
  }

  /** The reformatted text of `input`, as `FormatSmali` returns it. */
  function Formatted(input: string): string {
    Join(Reformatted(Split(input)))
  }

  /** Every line is kept, and changed at most by one line feed appended to it. */
  lemma LinesOnlyGainOneNewline(lines: seq<string>, k: nat)
    requires k < |lines|
    ensures Reformatted(lines)[k] == lines[k] || Reformatted(lines)[k] == lines[k] + "\n"
    ensures Reformatted(lines)[k] != lines[k] <==> Padded(lines, k)
  {
  }

  /** Removing the added blank lines restores lines that had no line feed. */
  lemma UnpaddedReformatted(lines: seq<string>)
    requires forall k :: 0 <= k < |lines| ==> '\n' !in lines[k]
    ensures Unpadded(Reformatted(lines)) == lines
  {
    var r := Reformatted(lines);
    forall k | 0 <= k < |lines| ensures Unpadded(r)[k] == lines[k] {
      if Padded(lines, k) {
        assert (lines[k] + "\n")[..|lines[k]|] == lines[k];
      } else if lines[k] != [] {
        assert lines[k][|lines[k]| - 1] in lines[k];
      }
    }
  }

  /**
   * Deleting the blank lines the formatter inserted gives back the input
   * with its trailing line feeds dropped.
   */
  lemma RemovingPaddingRestoresInput(input: string)
    ensures Join(Unpadded(Reformatted(Split(input)))) == DropTrailingNewlines(input)
  {
    SplitPieces(input);
    UnpaddedReformatted(Split(input));
    JoinSplit(input);
  }

  /** While the flag is down the loop leaves it down up to the next `.method` line. */
  lemma {:induction false} StaysOutside(lines: seq<string>, e: nat, k: nat)
    requires e <= k < |lines|
    requires !InsideAt(lines, e)
    requires forall j :: e < j <= k ==> !StartsWith(lines[j], ".method")
    ensures !InsideAt(lines, k)
    decreases k - e
  {
    if e < k {
      StaysOutside(lines, e, k - 1);
    }
  }

  /** Lines before the first `.method` line come out unchanged. */
  lemma BeforeFirstMethodUnchanged(lines: seq<string>, k: nat)
    requires k < |lines|
    requires forall j :: 0 <= j <= k ==> !StartsWith(lines[j], ".method")
    ensures Reformatted(lines)[k] == lines[k]
  {
    StaysOutside(lines, 0, k);
  }

  /** Lines from an `.end method` line up to the next `.method` line come out unchanged. */
  lemma AfterEndMethodUnchanged(lines: seq<string>, e: nat, k: nat)
    requires e <= k < |lines|
    requires StartsWith(lines[e], ".end method")
    requires forall j :: e < j <= k ==> !StartsWith(lines[j], ".method")
    ensures Reformatted(lines)[k] == lines[k]
  {
    StaysOutside(lines, e, k);
  }

  /** A `.method` line always gets a blank line after it. */
  lemma MethodLinePadded(lines: seq<string>, k: nat)
    requires k < |lines|
    requires StartsWith(lines[k], ".method")
    ensures Reformatted(lines)[k] == lines[k] + "\n"
  {
    var line := lines[k];
    PrefixesDiffer(line, ".method", ".end method", 1);
    assert InsideAt(lines, k);
    TrimKeepsSolidPrefix(line, ".method");
    var t := Trim(line);
    PrefixesDiffer(t, ".method", ".line", 1);
    PrefixesDiffer(t, ".method", ":", 0);
    PrefixesDiffer(t, ".method", ".prologue", 1);
    assert !IsSkipLine(line);
  }

  /** An `.end method` line never gets a blank line. */
  lemma EndMethodLineNotPadded(lines: seq<string>, k: nat)
    requires k < |lines|
    requires StartsWith(lines[k], ".end method")
    ensures Reformatted(lines)[k] == lines[k]
  {
  }

  /**
   * Inside a method body a line keeps its place in the flag's state unless it
   * starts a method or ends one; such a line, even an empty one, gets a blank
   * line unless its trimmed form is a directive, a label or a prologue marker.
   */
  lemma BodyLine(lines: seq<string>, k: nat)
    requires 0 < k < |lines| && InsideAt(lines, k - 1)
    requires !StartsWith(lines[k], ".end method")
    ensures Reformatted(lines)[k] == (if IsSkipLine(lines[k]) then lines[k] else lines[k] + "\n")
  {
  }

  /** An empty or blank line inside a method body gets a blank line. */
  lemma BlankBodyLinePadded(lines: seq<string>, k: nat)
    requires 0 < k < |lines| && InsideAt(lines, k - 1)
    requires AllTrimmable(lines[k])
    ensures Reformatted(lines)[k] == lines[k] + "\n"
  {
    var line := lines[k];
    assert line == [] || IsTrimmable(line[0]);
    assert InsideAt(lines, k);
    TrimOfBlank(line);
    assert !IsSkipLine(line);
  }

  /** Indentation does not change whether a line is skipped. */
  lemma SkipIgnoresIndentation(ws: string, line: string)
    requires AllTrimmable(ws)
    ensures IsSkipLine(ws + line) <==> IsSkipLine(line)
  {
    TrimIgnoresIndentation(ws, line);
  }

  /**
   * The `.method` and `.end method` tests are on the untrimmed line: an
   * indented line neither raises nor lowers the flag, whatever follows the
   * indentation.
   */
  lemma IndentedMarkersIgnored(inside: bool, ws: string, line: string)
    requires ws != [] && IsTrimmable(ws[0])
    ensures Step(inside, ws + line) == inside
  {
    assert (ws + line)[0] == ws[0];
  }

  /** The skip test is on the trimmed line: an indented `.line` directive is skipped. */
  lemma IndentedLineDirectiveSkipped()
    ensures IsSkipLine("    .line 5")
  {
    assert "    .line 5" == "    " + ".line 5";
    TrimIgnoresIndentation("    ", ".line 5");
    TrimKeepsSolidPrefix(".line 5", ".line");
  }

  /** The line feeds a reformatted line holds: one when it was padded. */
  lemma NewlinesOfLine(lines: seq<string>, k: nat)
    requires k < |lines| && '\n' !in lines[k]
    ensures NewlineCount(Reformatted(lines)[k]) == (if Padded(lines, k) then 1 else 0)
  {
    NewlineCountOfLine(lines[k]);
    if Padded(lines, k) {
      NewlineCountAppend(lines[k], "\n");
      assert NewlineCount("\n") == 1 by {
        assert multiset("\n") == multiset{'\n'};
      }
    }
  }

  /** The line feeds in the first `n` reformatted lines: one per added blank line. */
  lemma {:induction false} PaddedNewlines(lines: seq<string>, n: nat)
    requires n <= |lines|
    requires forall k :: 0 <= k < |lines| ==> '\n' !in lines[k]
    ensures NewlinesIn(Reformatted(lines)[..n]) == PaddedCount(lines, n)
  {
    if n > 0 {
      var r := Reformatted(lines);
      PaddedNewlines(lines, n - 1);
      NewlinesOfLine(lines, n - 1);
      assert r[..n][..n - 1] == r[..n - 1];
    }
  }

  /**
   * The output, cut at its line feeds, has as many lines as the input plus
   * one for every blank line added.
   */
  lemma OutputLineCount(input: string)
    requires Split(input) != []
    ensures |RawSplit(Formatted(input))| == |Split(input)| + PaddedCount(Split(input), |Split(input)|)
  {
    var lines := Split(input);
    var r := Reformatted(lines);
    SplitPieces(input);
    RawSplitCount(Join(r));
    JoinNewlineCount(r);
    PaddedNewlines(lines, |lines|);
    assert r[..|lines|] == r;
  }

  /** An input made only of line feeds splits into no lines and formats to the empty text. */
  lemma BlankInputFormatsToEmpty(input: string)
    requires Split(input) == []
    ensures Formatted(input) == ""
  {
  }

  /**
   * The output begins with the first line, and ends with a line feed only
   * when the last line received a blank line: joining adds line feeds only
   * between lines.
   */
  lemma OutputEnds(input: string)
    requires Split(input) != []
    ensures StartsWith(Formatted(input), Split(input)[0])
    ensures var lines := Split(input); var out := Formatted(input);
      (out != [] && out[|out| - 1] == '\n') <==> Padded(lines, |lines| - 1)
  {
    var lines := Split(input);
    var r := Reformatted(lines);
    var n := |lines|;
    var out := Join(r);
    JoinEnds(r);
    LinesOnlyGainOneNewline(lines, 0);
    assert StartsWith(r[0], lines[0]);
    assert StartsWith(out, lines[0]);
    LinesOnlyGainOneNewline(lines, n - 1);
    if Padded(lines, n - 1) {
      JoinLastChar(r);
    } else if input == [] {
      assert r == [""];
    } else {
      SplitPieces(input);
      JoinLastChar(r);
      var last := lines[n - 1];
      assert last[|last| - 1] in last;
    }
  }

  /** A method with a label, a line directive and one instruction, as baksmali writes it. */
  const ExampleInput := ".method foo\n:label1\n.line 5\nconst/4 v0\n.end method\n"
  const ExampleLines := [".method foo", ":label1", ".line 5", "const/4 v0", ".end method"]

  /** The example text is its lines joined, with a final newline. */
  lemma ExampleInputIsJoined()
    ensures ExampleInput == Join(ExampleLines) + "\n"
  {
  }

  lemma ExampleLinesHaveNoNewline()
    ensures forall k :: 0 <= k < |ExampleLines| ==> '\n' !in ExampleLines[k]
  {
  }

  lemma ExampleSplit()
    ensures Split(ExampleInput) == ExampleLines
  {
    ExampleInputIsJoined();
    ExampleLinesHaveNoNewline();
    SplitJoinedLines(ExampleLines);
  }

  lemma ExampleFlags()
    ensures InsideAt(ExampleLines, 0) && InsideAt(ExampleLines, 1) && InsideAt(ExampleLines, 2)
    ensures InsideAt(ExampleLines, 3) && !InsideAt(ExampleLines, 4)
  {
    var l := ExampleLines;
    PrefixesDiffer(l[0], ".m", ".end method", 1);
    PrefixesDiffer(l[1], ":", ".method", 0);
    PrefixesDiffer(l[1], ":", ".end method", 0);
    PrefixesDiffer(l[2], ".l", ".method", 1);
    PrefixesDiffer(l[2], ".l", ".end method", 1);
    PrefixesDiffer(l[3], "c", ".method", 0);
    PrefixesDiffer(l[3], "c", ".end method", 0);
    assert InsideAt(l, 0);
    assert InsideAt(l, 1);
    assert InsideAt(l, 2);
  }

  lemma ExampleSkips()
    ensures IsSkipLine(":label1") && IsSkipLine(".line 5") && !IsSkipLine("const/4 v0")
  {
    TrimKeepsSolidPrefix(":label1", ":");
    TrimKeepsSolidPrefix(".line 5", ".line");
    TrimKeepsSolidPrefix("const/4 v0", "c");
    var t := Trim("const/4 v0");
    PrefixesDiffer(t, "c", ".line", 0);
    PrefixesDiffer(t, "c", ":", 0);
    PrefixesDiffer(t, "c", ".prologue", 0);
  }

  /** What the formatter makes of the example. */
  const ExampleOutputLines := [".method foo\n", ":label1", ".line 5", "const/4 v0\n", ".end method"]

  lemma ExampleReformatted()
    ensures Reformatted(ExampleLines) == ExampleOutputLines
  {
    var l := ExampleLines;
    var r := Reformatted(l);
    assert l[0] == ".method foo" && l[1] == ":label1" && l[2] == ".line 5";
    assert l[3] == "const/4 v0" && l[4] == ".end method";
    ExampleFlags();
    ExampleSkips();
    assert r[0] == ".method foo\n" by {
      MethodLinePadded(l, 0);
    }
    assert r[1] == ":label1" by {
      PrefixesDiffer(l[1], ":", ".end method", 0);
      BodyLine(l, 1);
    }
    assert r[2] == ".line 5" by {
      PrefixesDiffer(l[2], ".l", ".end method", 1);
      BodyLine(l, 2);
    }
    assert r[3] == "const/4 v0\n" by {
      PrefixesDiffer(l[3], "c", ".end method", 0);
      BodyLine(l, 3);
    }
    assert r[4] == ".end method" by {
      EndMethodLineNotPadded(l, 4);
    }
  }

  /**
   * The method line and the instruction get a blank line; the label and the
   * line directive do not, nor does the closing line; the final line feed
   * of the input is dropped.
   */
  lemma ExampleMethod()
    ensures Formatted(ExampleInput) == Join(ExampleOutputLines)
  {
    ExampleSplit();
    ExampleReformatted();
  }
}
