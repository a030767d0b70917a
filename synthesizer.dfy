/** The commit-message synthesiser of the extension: it reads the text that
    `git status --porcelain` prints (one `XY path` line per change), labels
    each two-character status code, and builds the commit message, preferring
    the language model's answer and falling back to a fixed template. */
module Synthesizer {
  import opened Options
  import opened JsString

  /** The labels `getFileStatusFromCode` hands out. */
  datatype FileStatus = Added | Modified | Deleted | Renamed | Copied | Untracked | Changed

  /** The text of a label, as the source spells it. */
  function StatusName(s: FileStatus): string {
    match s
    case Added => "Added"
    case Modified => "Modified"
    case Deleted => "Deleted"
    case Renamed => "Renamed"
    case Copied => "Copied"
    case Untracked => "Untracked"
    case Changed => "Changed"
  }

  /** Place of a label in the precedence chain; `Changed` is the default. */
  function Rank(s: FileStatus): nat {
    match s
    case Added => 0
    case Modified => 1
    case Deleted => 2
    case Renamed => 3
    case Copied => 4
    case Untracked => 5
    case Changed => 6
  }

  /** The code letter that selects a label. */
  function Letter(s: FileStatus): char
    requires s != Changed
  {
    match s
    case Added => 'A'
    case Modified => 'M'
    case Deleted => 'D'
    case Renamed => 'R'
    case Copied => 'C'
    case Untracked => '?'
  }

  /** `getFileStatusFromCode`: the label of the highest-precedence letter
      that occurs anywhere in the code (A before M before D, R, C, ?), and
      `Changed` when none does. */
  function FileStatusFromCode(code: string): (s: FileStatus)
    ensures s != Changed ==> Letter(s) in code
    ensures forall t :: Rank(t) < Rank(s) ==> t != Changed && Letter(t) !in code
  {
    if 'A' in code then Added
    else if 'M' in code then Modified
    else if 'D' in code then Deleted
    else if 'R' in code then Renamed
    else if 'C' in code then Copied
    else if '?' in code then Untracked
    else Changed
  }

  /** The two facts above pin the label down: no other label satisfies them. */
  lemma PrecedenceDeterminesStatus(code: string, s: FileStatus)
    requires s != Changed ==> Letter(s) in code
    requires forall t :: Rank(t) < Rank(s) ==> t != Changed && Letter(t) !in code
    ensures s == FileStatusFromCode(code)
  {
  }

  /** One change as `generateCommitMessage` records it. */
  datatype ChangedFile = ChangedFile(path: string, status: FileStatus)

  /** The record for one porcelain line: the status is the first two
      characters, the path everything from index 3 on (`substring(0, 2)` and
      `substring(3)`, both of which tolerate short lines). */
  function ParseLine(line: string): (f: ChangedFile)
    ensures f.status == FileStatusFromCode(if |line| < 2 then line else line[..2])
    ensures f.path == if |line| <= 3 then [] else line[3..]
  {
    ChangedFile(Substring(line, 3, |line|), FileStatusFromCode(Substring(line, 0, 2)))
  }

  /** `filter(line => line.trim())`: the non-blank lines, in order
      (NonBlankEmptyIff, NonBlankKeepsLine and NonBlankDropsLine say which
      lines are kept and where). */
  function NonBlank(lines: seq<string>): (kept: seq<string>)
    ensures |kept| <= |lines|
    ensures forall i :: 0 <= i < |kept| ==> !IsBlank(kept[i])
  {
    if lines == [] then []
    else (if IsBlank(lines[0]) then [] else [lines[0]]) + NonBlank(lines[1..])
  }

  /** Nothing is kept exactly when every line is blank. */
  lemma {:induction false} NonBlankEmptyIff(lines: seq<string>)
    ensures NonBlank(lines) == [] <==> forall i :: 0 <= i < |lines| ==> IsBlank(lines[i])
  {
    if lines != [] {
      NonBlankEmptyIff(lines[1..]);
      assert forall i :: 1 <= i < |lines| ==> lines[i] == lines[1..][i - 1];
    }
  }

  lemma {:induction false} NonBlankAppend(a: seq<string>, b: seq<string>)
    ensures NonBlank(a + b) == NonBlank(a) + NonBlank(b)
  {
    if a != [] {
      assert (a + b)[0] == a[0] && (a + b)[1..] == a[1..] + b;
      NonBlankAppend(a[1..], b);
    } else {
      assert a + b == b;
    }
  }

  /** A non-blank line is kept, between what is kept of the lines before it
      and what is kept of the lines after it. */
  lemma NonBlankKeepsLine(lines: seq<string>, i: nat)
    requires i < |lines| && !IsBlank(lines[i])
    ensures NonBlank(lines) == NonBlank(lines[..i]) + [lines[i]] + NonBlank(lines[i + 1..])
  {
    NonBlankAround(lines, i);
  }

  /** A blank line is dropped, and nothing else moves. */
  lemma NonBlankDropsLine(lines: seq<string>, i: nat)
    requires i < |lines| && IsBlank(lines[i])
    ensures NonBlank(lines) == NonBlank(lines[..i]) + NonBlank(lines[i + 1..])
  {
    NonBlankAround(lines, i);
  }

  lemma NonBlankAround(lines: seq<string>, i: nat)
    requires i < |lines|
    ensures NonBlank(lines)
      == NonBlank(lines[..i]) + (if IsBlank(lines[i]) then [] else [lines[i]]) + NonBlank(lines[i + 1..])
  {
    NonBlankSplitAt(lines, i);
    NonBlankFrom(lines, i);
    Regroup(NonBlank(lines), NonBlank(lines[..i]), NonBlank(lines[i..]),
      if IsBlank(lines[i]) then [] else [lines[i]], NonBlank(lines[i + 1..]));
  }

  lemma NonBlankSplitAt(lines: seq<string>, i: nat)
    requires i <= |lines|
    ensures NonBlank(lines) == NonBlank(lines[..i]) + NonBlank(lines[i..])
  {
    TakeDrop(lines, i);
    NonBlankAppend(lines[..i], lines[i..]);
  }

  lemma TakeDrop<T>(s: seq<T>, i: nat)
    requires i <= |s|
    ensures s[..i] + s[i..] == s
  {
  }

  lemma NonBlankFrom(lines: seq<string>, i: nat)
    requires i < |lines|
    ensures NonBlank(lines[i..]) == (if IsBlank(lines[i]) then [] else [lines[i]]) + NonBlank(lines[i + 1..])
  {
    assert lines[i..][1..] == lines[i + 1..];
  }

  lemma Regroup<T>(x: seq<T>, a: seq<T>, y: seq<T>, h: seq<T>, b: seq<T>)
    requires x == a + y && y == h + b
    ensures x == a + h + b
  {
  }

  /** The non-blank lines of a text. */
  function Lines(text: string): seq<string> {
    NonBlank(Split(text, '\n'))
  }

  /** The lines `generateCommitMessage` parses: those of the output after
      `trim()` has been applied to the output as a whole. */
  function StatusLines(statusOutput: string): seq<string> {
    Lines(Trim(statusOutput))
  }

  /** The records parsed from the output, one per status line, in order. */
  function ParseStatus(statusOutput: string): (files: seq<ChangedFile>)
    ensures |files| == |StatusLines(statusOutput)|
    ensures forall i :: 0 <= i < |files| ==> files[i] == ParseLine(StatusLines(statusOutput)[i])
  {
    var lines := StatusLines(statusOutput);
    seq(|lines|, i requires 0 <= i < |lines| => ParseLine(lines[i]))
  }

  function Paths(files: seq<ChangedFile>): (paths: seq<string>)
    ensures |paths| == |files|
    ensures forall i :: 0 <= i < |files| ==> paths[i] == files[i].path
  {
    seq(|files|, i requires 0 <= i < |files| => files[i].path)
  }

  // ---------------------------------------------------------------------
  // What the global trim does to the lines

  lemma AllWhitespaceCons(c: char, x: string)
    requires IsWhitespace(c)
    ensures AllWhitespace([c] + x) <==> AllWhitespace(x)
  {
    if AllWhitespace(x) {
      forall i | 0 <= i < |[c] + x| ensures IsWhitespace(([c] + x)[i]) {
        if i > 0 { assert ([c] + x)[i] == x[i - 1]; }
      }
    }
    if AllWhitespace([c] + x) {
      forall i | 0 <= i < |x| ensures IsWhitespace(x[i]) {
        assert x[i] == ([c] + x)[i + 1];
      }
    }
  }

  lemma AllWhitespaceSnoc(x: string, c: char)
    requires IsWhitespace(c)
    ensures AllWhitespace(x + [c]) <==> AllWhitespace(x)
  {
    if AllWhitespace(x) {
      forall i | 0 <= i < |x + [c]| ensures IsWhitespace((x + [c])[i]) {
        if i < |x| { assert (x + [c])[i] == x[i]; }
      }
    }
    if AllWhitespace(x + [c]) {
      forall i | 0 <= i < |x| ensures IsWhitespace(x[i]) {
        assert x[i] == (x + [c])[i];
      }
    }
  }

  /** A string holding a character other than whitespace is not blank. */
  lemma NotBlankWith(s: string, k: nat)
    requires k < |s| && !IsWhitespace(s[k])
    ensures !IsBlank(s)
  {
  }

  /** The effect of `trimStart` on the non-blank lines. */
  function DropLead(lines: seq<string>): seq<string> {
    if lines == [] then [] else [TrimStart(lines[0])] + lines[1..]
  }

  /** The effect of `trimEnd` on the non-blank lines. */
  function DropTrail(lines: seq<string>): seq<string> {
    if lines == [] then [] else lines[..|lines| - 1] + [TrimEnd(lines[|lines| - 1])]
  }

  /** Filtering a list that starts with `first`. */
  lemma NonBlankCons(first: string, rest: seq<string>)
    ensures NonBlank([first] + rest) == (if IsBlank(first) then [] else [first]) + NonBlank(rest)
  {
    assert ([first] + rest)[1..] == rest;
  }

  /** Whitespace at the very start changes nothing once `trimStart` has run. */
  lemma LinesLeadingWhitespace(s: string)
    requires s != [] && IsWhitespace(s[0])
    ensures DropLead(Lines(s)) == DropLead(Lines(s[1..]))
  {
    var r := Split(s[1..], '\n');
    var rest := NonBlank(r[1..]);
    assert Lines(s[1..]) == (if IsBlank(r[0]) then [] else [r[0]]) + rest by {
      assert r == [r[0]] + r[1..];
      NonBlankCons(r[0], r[1..]);
    }
    if s[0] == '\n' {
      assert Lines(s) == Lines(s[1..]) by {
        assert Split(s, '\n') == [[]] + r;
        assert IsBlank([]);
        NonBlankCons([], r);
      }
    } else {
      var first := [s[0]] + r[0];
      assert Lines(s) == (if IsBlank(first) then [] else [first]) + rest by {
        assert Split(s, '\n') == [first] + r[1..];
        NonBlankCons(first, r[1..]);
      }
      AllWhitespaceCons(s[0], r[0]);
      if !IsBlank(r[0]) {
        assert TrimStart(first) == TrimStart(r[0]) by {
          assert first[1..] == r[0];
        }
        DropLeadCons(first, rest);
        DropLeadCons(r[0], rest);
      }
    }
  }

  /** The effect of `trimStart` on a list that starts with `first`. */
  lemma DropLeadCons(first: string, rest: seq<string>)
    ensures DropLead([first] + rest) == [TrimStart(first)] + rest
  {
    assert ([first] + rest)[1..] == rest;
  }

  /** The first non-blank line of a text that starts with a character other
      than whitespace is left alone by `trimStart`. */
  lemma LinesStartingSolid(s: string)
    requires s != [] && !IsWhitespace(s[0])
    ensures DropLead(Lines(s)) == Lines(s)
  {
    var r := Split(s[1..], '\n');
    var first := [s[0]] + r[0];
    assert Lines(s) == [first] + NonBlank(r[1..]) by {
      assert Split(s, '\n') == [first] + r[1..];
      NotBlankWith(first, 0);
      NonBlankCons(first, r[1..]);
    }
    assert TrimStart(first) == first;
    DropLeadCons(first, NonBlank(r[1..]));
  }

  lemma {:induction false} LinesTrimStart(s: string)
    ensures Lines(TrimStart(s)) == DropLead(Lines(s))
    decreases |s|
  {
    if s == [] {
      assert Split([], '\n') == [[]];
      assert IsBlank([]);
    } else if !IsWhitespace(s[0]) {
      assert TrimStart(s) == s;
      LinesStartingSolid(s);
    } else {
      LinesTrimStart(s[1..]);
      LinesLeadingWhitespace(s);
    }
  }

  /** Filtering a list that ends in `last`. */
  lemma NonBlankSnoc(front: seq<string>, last: string)
    ensures NonBlank(front + [last]) == NonBlank(front) + (if IsBlank(last) then [] else [last])
  {
    NonBlankAppend(front, [last]);
    assert NonBlank([last]) == (if IsBlank(last) then [] else [last]) + NonBlank([]);
  }

  /** The effect of `trimEnd` on a list that ends in `last`. */
  lemma DropTrailSnoc(front: seq<string>, last: string)
    ensures DropTrail(front + [last]) == front + [TrimEnd(last)]
  {
    assert (front + [last])[..|front|] == front;
  }

  /** The non-blank lines of a text that grows by one character that is
      not a line feed: only the last piece of the split changes. */
  lemma LinesSnoc(init: string, c: char)
    requires c != '\n'
    ensures var p := Split(init, '\n');
      var front, last := p[..|p| - 1], p[|p| - 1];
      && Lines(init) == NonBlank(front) + (if IsBlank(last) then [] else [last])
      && Lines(init + [c]) == NonBlank(front) + (if IsBlank(last + [c]) then [] else [last + [c]])
  {
    var p := Split(init, '\n');
    var front, last := p[..|p| - 1], p[|p| - 1];
    assert Lines(init) == NonBlank(front) + (if IsBlank(last) then [] else [last]) by {
      assert p == front + [last];
      NonBlankSnoc(front, last);
    }
    assert Split(init + [c], '\n') == front + [last + [c]] by {
      SplitSnoc(init, c, '\n');
    }
    NonBlankSnoc(front, last + [c]);
  }

  /** Whitespace at the very end changes nothing once `trimEnd` has run. */
  lemma LinesTrailingWhitespace(s: string)
    requires s != [] && IsWhitespace(s[|s| - 1])
    ensures DropTrail(Lines(s)) == DropTrail(Lines(s[..|s| - 1]))
  {
    var init, c := s[..|s| - 1], s[|s| - 1];
    assert s == init + [c];
    if c == '\n' {
      assert Lines(s) == Lines(init) by {
        SplitSnoc(init, c, '\n');
        assert IsBlank([]);
        NonBlankSnoc(Split(init, '\n'), []);
      }
    } else {
      var p := Split(init, '\n');
      var front, last := p[..|p| - 1], p[|p| - 1];
      LinesSnoc(init, c);
      AllWhitespaceSnoc(last, c);
      if !IsBlank(last) {
        assert TrimEnd(last + [c]) == TrimEnd(last) by {
          assert (last + [c])[..|last + [c]| - 1] == last;
        }
        DropTrailSnoc(NonBlank(front), last);
        DropTrailSnoc(NonBlank(front), last + [c]);
      }
    }
  }

  /** The last non-blank line of a text that ends in a character other
      than whitespace is left alone by `trimEnd`. */
  lemma LinesEndingSolid(s: string)
    requires s != [] && !IsWhitespace(s[|s| - 1])
    ensures DropTrail(Lines(s)) == Lines(s)
  {
    var init, c := s[..|s| - 1], s[|s| - 1];
    assert s == init + [c];
    var p := Split(init, '\n');
    var front, last := NonBlank(p[..|p| - 1]), p[|p| - 1] + [c];
    assert Lines(s) == front + [last] by {
      LinesSnoc(init, c);
      NotBlankWith(last, |last| - 1);
    }
    assert TrimEnd(last) == last;
    DropTrailSnoc(front, last);
  }

  lemma {:induction false} LinesTrimEnd(s: string)
    ensures Lines(TrimEnd(s)) == DropTrail(Lines(s))
    decreases |s|
  {
    if s == [] {
      assert Split([], '\n') == [[]];
      assert IsBlank([]);
    } else if !IsWhitespace(s[|s| - 1]) {
      assert TrimEnd(s) == s;
      LinesEndingSolid(s);
    } else {
      LinesTrimEnd(s[..|s| - 1]);
      LinesTrailingWhitespace(s);
    }
  }

  lemma StatusLinesTrimOuter(statusOutput: string)
    ensures StatusLines(statusOutput) == DropTrail(DropLead(Lines(statusOutput)))
  {
    LinesTrimStart(statusOutput);
    LinesTrimEnd(TrimStart(statusOutput));
  }

  /** The global `trim()` keeps the non-blank lines and their order, but the
      first loses its leading whitespace and the last its trailing
      whitespace; every line in between is parsed exactly as git printed it. */
  lemma TrimTouchesOnlyOuterLines(statusOutput: string)
    ensures var lines, parsed := Lines(statusOutput), StatusLines(statusOutput);
      && |parsed| == |lines|
      && (forall i :: 0 < i < |lines| - 1 ==> parsed[i] == lines[i])
      && (|lines| == 1 ==> parsed[0] == Trim(lines[0]))
      && (|lines| > 1 ==> parsed[0] == TrimStart(lines[0]) && parsed[|lines| - 1] == TrimEnd(lines[|lines| - 1]))
  {
    StatusLinesTrimOuter(statusOutput);
    DropOuterShape(Lines(statusOutput));
  }

  /** Trimming the two ends of a list of lines keeps its length and every
      line in between. */
  lemma DropOuterShape(lines: seq<string>)
    ensures var both := DropTrail(DropLead(lines));
      && |both| == |lines|
      && (forall i :: 0 < i < |lines| - 1 ==> both[i] == lines[i])
      && (|lines| == 1 ==> both[0] == Trim(lines[0]))
      && (|lines| > 1 ==> both[0] == TrimStart(lines[0]) && both[|lines| - 1] == TrimEnd(lines[|lines| - 1]))
  {
  }

  /** A text with a character other than whitespace has a non-blank line. */
  lemma LinesOfLeadingNonWhitespace(t: string)
    requires t != [] && !IsWhitespace(t[0])
    ensures Lines(t) != []
  {
    var r := Split(t[1..], '\n');
    var first := [t[0]] + r[0];
    assert Split(t, '\n') == [first] + r[1..];
    NotBlankWith(first, 0);
  }

  /** Whitespace-only output, and only that, yields no records. */
  lemma ParseStatusEmptyIff(statusOutput: string)
    ensures ParseStatus(statusOutput) == [] <==> AllWhitespace(statusOutput)
  {
    var t := Trim(statusOutput);
    BlankIffTrimsToEmpty(statusOutput);
    if t == [] {
      assert Split([], '\n') == [[]];
      assert IsBlank([]);
    } else {
      var s := TrimStart(statusOutput);
      assert t == s[..|t|];
      LinesOfLeadingNonWhitespace(t);
    }
  }

  // ---------------------------------------------------------------------
  // The message

  /** What an empty change list produces. */
  const NoChangesMessage: string := "Auto-commit: Update files"

  const FallbackPrefix: string := "Auto-commit: "

  /** The deterministic fallback: `Auto-commit: <paths joined by ", "> at
      <timestamp>`, with `Update files` standing in for an empty list. */
  function FallbackMessage(paths: seq<string>, now: string): (m: string)
    ensures |m| > |FallbackPrefix| && m[..|FallbackPrefix|] == FallbackPrefix
    ensures |m| >= |now| + 4 && m[|m| - |now| - 4..] == " at " + now
  {
    var fileList := if |paths| > 0 then Join(paths, ", ") else "Update files";
    FallbackPrefix + fileList + " at " + now
  }

  /** A suffix of the middle piece of a concatenation, followed by the last
      piece, is a suffix of the whole. */
  lemma SuffixOfMiddle(a: string, j: string, c: string, o: nat)
    requires o <= |j|
    ensures |a| + o <= |a + j + c| && (a + j + c)[|a| + o..] == j[o..] + c
  {
  }

  /** A string that reads `p`, then `sep`, from offset `k` on has them at
      that offset. */
  lemma FrontPieces(m: string, k: nat, p: string, sep: string, rest: string, c: string, next: bool)
    requires k <= |m|
    requires next ==> m[k..] == p + sep + rest + c
    requires !next ==> m[k..] == p + c
    ensures k + |p| <= |m| && m[k..k + |p|] == p
    ensures next ==> k + |p| + |sep| <= |m| && m[k + |p|..k + |p| + |sep|] == sep
  {
    SliceOfSuffix(m, k, 0, |p|);
    if next {
      SliceOfSuffix(m, k, |p|, |p| + |sep|);
    }
  }

  /** A non-empty list puts the joined paths between the prefix and the
      timestamp. */
  lemma FallbackShape(paths: seq<string>, now: string)
    requires |paths| > 0
    ensures FallbackMessage(paths, now) == FallbackPrefix + Join(paths, ", ") + (" at " + now)
  {
  }

  /** The fallback lists every path, in order: from where the `i`-th path
      starts, the message reads that path and the ones after it, joined by
      ", ", then the timestamp; so the path stands there, followed by ", "
      unless it is the last. */
  lemma FallbackListsEveryPath(paths: seq<string>, now: string, i: nat)
    requires i < |paths|
    ensures var m, k := FallbackMessage(paths, now), |FallbackPrefix| + Offset(paths, ", ", i);
      && k + |paths[i]| <= |m|
      && m[k..] == Join(paths[i..], ", ") + (" at " + now)
      && m[k..k + |paths[i]|] == paths[i]
      && (i + 1 < |paths| ==> k + |paths[i]| + 2 <= |m| && m[k + |paths[i]|..k + |paths[i]| + 2] == ", ")
  {
    var o := Offset(paths, ", ", i);
    var k := |FallbackPrefix| + o;
    var m, rest := FallbackMessage(paths, now), Join(paths[i..], ", ");
    FallbackShape(paths, now);
    JoinFrom(paths, ", ", i);
    SuffixOfMiddle(FallbackPrefix, Join(paths, ", "), " at " + now, o);
    if i + 1 < |paths| {
      JoinHead(paths[i..], ", ");
      assert paths[i..][1..] == paths[i + 1..];
      assert rest == paths[i] + ", " + Join(paths[i + 1..], ", ");
      FrontPieces(m, k, paths[i], ", ", Join(paths[i + 1..], ", "), " at " + now, true);
    } else {
      assert paths[i..] == [paths[i]];
      FrontPieces(m, k, paths[i], ", ", [], " at " + now, false);
    }
  }

  /** The language model's answer as the extension accepts it: trimmed, and
      only when something is left. An absent model, an error and an empty
      answer all arrive here as `None` or as a blank string. */
  function AiAnswer(ai: Option<string>): (r: Option<string>)
    ensures r.Some? ==> ai.Some? && r.value == Trim(ai.value) && !IsBlank(r.value)
    ensures r.None? ==> ai.None? || IsBlank(ai.value)
  {
    if ai.None? then None
    else
      BlankIffTrimsToEmpty(ai.value);
      var t := Trim(ai.value);
      if t == [] then None
      else
        assert t == TrimStart(ai.value)[..|t|];
        NotBlankWith(t, 0);
        Some(t)
  }

  /** `generateCommitMessage(statusOutput)`: the fixed message for an empty
      change list; otherwise the model's trimmed answer when it gave a
      non-blank one, and the fallback listing the parsed paths when not. */
  function GenerateCommitMessage(statusOutput: string, ai: Option<string>, now: string): (m: string)
    ensures ParseStatus(statusOutput) == [] ==> m == NoChangesMessage
    ensures ParseStatus(statusOutput) != [] && AiAnswer(ai).Some? ==> m == AiAnswer(ai).value
    ensures ParseStatus(statusOutput) != [] && AiAnswer(ai).None? ==>
      m == FallbackMessage(Paths(ParseStatus(statusOutput)), now)
    ensures !IsBlank(m)
  {
    var files := ParseStatus(statusOutput);
    if |files| == 0 then
      NotBlankWith(NoChangesMessage, 0);
      NoChangesMessage
    else match AiAnswer(ai)
      case Some(answer) => answer
      case None =>
        var m := FallbackMessage(Paths(files), now);
        assert m[0] == FallbackPrefix[0];
        NotBlankWith(m, 0);
        m
  }
}
