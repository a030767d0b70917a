/** The short format of git-status(1) (`git status --porcelain`, version 1):
    one `XY PATH` line per change, each ended by a line feed. Formatting a
    list of entries and parsing the text back shows what the extension's
    parser recovers, and where the global `trim()` makes it lose a character
    of the first path. */
module Porcelain {
  import opened JsString
  import opened Synthesizer

  /** The letters of the X and Y columns in git-status(1) short format. */
  predicate IsStatusLetter(c: char) {
    c in " MTADRCU?!"
  }

  /** One line of the short format: the index column, the work-tree column
      and the path. */
  datatype Entry = Entry(x: char, y: char, path: string)

  /** An entry git can print: status letters in both columns, and a
      non-empty path on one line that does not end in whitespace (git quotes
      such names). */
  predicate ValidEntry(e: Entry) {
    && IsStatusLetter(e.x) && IsStatusLetter(e.y)
    && e.path != [] && '\n' !in e.path && !IsWhitespace(e.path[|e.path| - 1])
  }

  predicate ValidEntries(es: seq<Entry>) {
    forall i :: 0 <= i < |es| ==> ValidEntry(es[i])
  }

  function FormatEntry(e: Entry): (line: string)
    ensures |line| == 3 + |e.path| && line[..2] == [e.x, e.y] && line[3..] == e.path
  {
    [e.x, e.y, ' '] + e.path
  }

  function FormatLines(es: seq<Entry>): (lines: seq<string>)
    ensures |lines| == |es|
    ensures forall i :: 0 <= i < |es| ==> lines[i] == FormatEntry(es[i])
  {
    seq(|es|, i requires 0 <= i < |es| => FormatEntry(es[i]))
  }

  /** What git prints for the entries: each line ended by a line feed. */
  function Format(es: seq<Entry>): string {
    if es == [] then [] else Join(FormatLines(es), "\n") + "\n"
  }

  /** The records a parser should recover: the path as printed and the label
      of the two-letter code. */
  function Expected(es: seq<Entry>): (files: seq<ChangedFile>)
    ensures |files| == |es|
    ensures forall i :: 0 <= i < |es| ==>
      files[i] == ChangedFile(es[i].path, FileStatusFromCode([es[i].x, es[i].y]))
  {
    seq(|es|, i requires 0 <= i < |es| => ChangedFile(es[i].path, FileStatusFromCode([es[i].x, es[i].y])))
  }

  lemma {:induction false} JoinThenSeparator(parts: seq<string>, sep: string)
    requires |parts| >= 1
    ensures Join(parts + [[]], sep) == Join(parts, sep) + sep
  {
    if |parts| == 1 {
      assert (parts + [[]])[1..] == [[]];
    } else {
      assert (parts + [[]])[1..] == parts[1..] + [[]];
      JoinThenSeparator(parts[1..], sep);
    }
  }

  lemma {:induction false} NonBlankKeepsAll(lines: seq<string>)
    requires forall i :: 0 <= i < |lines| ==> !IsBlank(lines[i])
    ensures NonBlank(lines) == lines
  {
    if lines != [] {
      NonBlankKeepsAll(lines[1..]);
    }
  }

  /** The non-blank lines of the formatted text are the formatted entries. */
  lemma LinesOfFormat(es: seq<Entry>)
    requires ValidEntries(es)
    ensures Lines(Format(es)) == FormatLines(es)
  {
    var lines := FormatLines(es);
    if es == [] {
      assert Split([], '\n') == [[]];
      assert IsBlank([]);
    } else {
      forall i | 0 <= i < |lines| ensures '\n' !in lines[i] && !IsBlank(lines[i]) {
        var e := es[i];
        assert lines[i] == [e.x, e.y, ' '] + e.path;
        NotBlankWith(lines[i], |lines[i]| - 1);
      }
      JoinThenSeparator(lines, "\n");
      SplitJoin(lines + [[]], '\n');
      NonBlankAppend(lines, [[]]);
      assert IsBlank([]);
      NonBlankKeepsAll(lines);
    }
  }

  lemma ParseFormattedLine(e: Entry)
    ensures ParseLine(FormatEntry(e)) == ChangedFile(e.path, FileStatusFromCode([e.x, e.y]))
  {
  }

  /** The extension's parser recovers every entry exactly, provided the first
      line does not start with a blank index column. */
  lemma ParseStatusRoundTrip(es: seq<Entry>)
    requires ValidEntries(es)
    requires es != [] ==> es[0].x != ' '
    ensures ParseStatus(Format(es)) == Expected(es)
  {
    var out := Format(es);
    assert OuterLinesSolid(Lines(out)) by {
      LinesOfFormat(es);
      FormattedLinesSolid(es);
    }
    ParsersAgreeOnTrimmedOutput(out);
    ParseStatusExactRoundTrip(es);
  }

  /** Formatted entries end in their path, which does not end in whitespace,
      and start with their index column. */
  lemma FormattedLinesSolid(es: seq<Entry>)
    requires ValidEntries(es)
    requires es != [] ==> es[0].x != ' '
    ensures OuterLinesSolid(FormatLines(es))
  {
    var lines := FormatLines(es);
    if es != [] {
      var first, last := lines[0], lines[|lines| - 1];
      assert first[0] == es[0].x;
      var p := es[|es| - 1].path;
      assert last[|last| - 1] == p[|p| - 1];
    }
  }

  /** Where the round trip fails: git prints ` M a.txt` for a file modified
      in the work tree only; `trim()` removes the leading space, so
      `substring(3)` starts one character into the path. The same happens to
      every entry with a blank index column that stands alone in the output. */
  lemma TrimQuirkLosesFirstPathCharacter(e: Entry)
    requires ValidEntry(e) && e.x == ' ' && e.y != ' '
    ensures Expected([e]) == [ChangedFile(e.path, FileStatusFromCode([e.x, e.y]))]
    ensures ParseStatus(Format([e])) == [ChangedFile(e.path[1..], FileStatusFromCode([e.x, e.y]))]
    ensures e.path[1..] != e.path
  {
    LinesOfSingleEntry(e);
    ParseIndentedOutput(Format([e]), e);
  }

  lemma ParseIndentedOutput(out: string, e: Entry)
    requires ValidEntry(e) && e.x == ' ' && e.y != ' '
    requires Lines(out) == [FormatEntry(e)]
    ensures ParseStatus(out) == [ChangedFile(e.path[1..], FileStatusFromCode([e.x, e.y]))]
  {
    StatusLinesOfIndented(out, e.y, e.path);
    var parsed := ParseStatus(out);
    assert |parsed| == 1 && parsed[0] == ParseLine([e.y, ' '] + e.path);
    ParseShiftedLine(e);
  }

  lemma StatusLinesOfIndented(out: string, y: char, path: string)
    requires Lines(out) == [[' ', y, ' '] + path]
    requires !IsWhitespace(y) && path != [] && !IsWhitespace(path[|path| - 1])
    ensures StatusLines(out) == [[y, ' '] + path]
  {
    StatusLinesTrimOuter(out);
    TrimIndentedLine(y, path);
  }

  lemma LinesOfSingleEntry(e: Entry)
    requires ValidEntry(e)
    ensures Lines(Format([e])) == [FormatEntry(e)]
  {
    LinesOfFormat([e]);
    assert FormatLines([e]) == [FormatEntry(e)];
  }

  /** `trim()` of a lone line with a blank first column drops that column. */
  lemma TrimIndentedLine(y: char, path: string)
    requires !IsWhitespace(y) && path != [] && !IsWhitespace(path[|path| - 1])
    ensures DropTrail(DropLead([[' ', y, ' '] + path])) == [[y, ' '] + path]
  {
    var line := [' ', y, ' '] + path;
    var trimmed := [y, ' '] + path;
    assert line[1..] == trimmed;
    assert TrimStart(trimmed) == trimmed;
    assert TrimStart(line) == trimmed;
    assert TrimEnd(trimmed) == trimmed;
    assert DropLead([line]) == [trimmed];
  }

  /** The shifted line keeps its label, since the label depends only on
      which letters occur, but its path starts one character late. */
  lemma ParseShiftedLine(e: Entry)
    requires ValidEntry(e) && e.x == ' ' && e.y != ' '
    ensures ParseLine([e.y, ' '] + e.path) == ChangedFile(e.path[1..], FileStatusFromCode([e.x, e.y]))
  {
    var trimmed := [e.y, ' '] + e.path;
    assert trimmed[..2] == [e.y, ' '] && trimmed[3..] == e.path[1..];
    assert FileStatusFromCode([e.y, ' ']) == FileStatusFromCode([' ', e.y]);
  }

  /** The parser as evidently intended: it drops blank lines but does not
      trim the output as a whole, so every line keeps its two status columns. */
  function ParseStatusExact(statusOutput: string): (files: seq<ChangedFile>)
    ensures |files| == |Lines(statusOutput)|
    ensures forall i :: 0 <= i < |files| ==> files[i] == ParseLine(Lines(statusOutput)[i])
  {
    var lines := Lines(statusOutput);
    seq(|lines|, i requires 0 <= i < |lines| => ParseLine(lines[i]))
  }

  /** The intended parser recovers every valid entry, whatever its columns. */
  lemma ParseStatusExactRoundTrip(es: seq<Entry>)
    requires ValidEntries(es)
    ensures ParseStatusExact(Format(es)) == Expected(es)
  {
    LinesOfFormat(es);
    forall i | 0 <= i < |es| ensures ParseStatusExact(Format(es))[i] == Expected(es)[i] {
      ParseFormattedLine(es[i]);
    }
  }

  /** The first line starts, and the last line ends, with a character other
      than whitespace. */
  predicate OuterLinesSolid(lines: seq<string>) {
    lines != [] ==>
      && lines[0] != [] && !IsWhitespace(lines[0][0])
      && lines[|lines| - 1] != [] && !IsWhitespace(lines[|lines| - 1][|lines[|lines| - 1]| - 1])
  }

  /** The two parsers agree whenever the first line starts with a character
      other than whitespace and the last ends with one. */
  lemma ParsersAgreeOnTrimmedOutput(statusOutput: string)
    requires OuterLinesSolid(Lines(statusOutput))
    ensures ParseStatus(statusOutput) == ParseStatusExact(statusOutput)
  {
    StatusLinesTrimOuter(statusOutput);
    SolidLinesUntouched(Lines(statusOutput));
  }

  /** Trimming the ends of lines that already start and end with a character
      other than whitespace changes nothing. */
  lemma SolidLinesUntouched(lines: seq<string>)
    requires OuterLinesSolid(lines)
    ensures DropTrail(DropLead(lines)) == lines
  {
    if lines != [] {
      var lead := DropLead(lines);
      assert lead == lines;
    }
  }
}
