/** The JavaScript string built-ins the extension relies on: `trim`, `split`
    on one character, `join`, and `substring` with its clamping rules.
    Strings are sequences of characters; a line is a piece of a string that
    contains no line feed. */
module JsString {

  /** The characters ECMAScript's `trim` removes: WhiteSpace (tab, vertical
      tab, form feed, space, no-break space, the byte-order mark and the
      other space separators) and LineTerminator (line feed, carriage return,
      line and paragraph separators). */
  predicate IsWhitespace(c: char) {
    c == ' ' || c == '\t' || c == '\n' || c == '\r' || c == '\U{000B}' || c == '\U{000C}'
    || c == '\U{00A0}' || c == '\U{FEFF}' || c == '\U{1680}'
    || ('\U{2000}' <= c <= '\U{200A}')
    || c == '\U{2028}' || c == '\U{2029}' || c == '\U{202F}' || c == '\U{205F}' || c == '\U{3000}'
  }

  predicate AllWhitespace(s: string) {
    forall i :: 0 <= i < |s| ==> IsWhitespace(s[i])
  }

  /** `s.trimStart()`: drops the leading whitespace. */
  function TrimStart(s: string): (r: string)
    ensures |r| <= |s| && r == s[|s| - |r|..]
    ensures AllWhitespace(s[..|s| - |r|])
    ensures r == [] || !IsWhitespace(r[0])
  {
    if s != [] && IsWhitespace(s[0]) then TrimStart(s[1..]) else s
  }

  /** `s.trimEnd()`: drops the trailing whitespace. */
  function TrimEnd(s: string): (r: string)
    ensures |r| <= |s| && r == s[..|r|]
    ensures AllWhitespace(s[|r|..])
    ensures r == [] || !IsWhitespace(r[|r| - 1])
  {
    if s != [] && IsWhitespace(s[|s| - 1]) then TrimEnd(s[..|s| - 1]) else s
  }

  /** `s.trim()`. */
  function Trim(s: string): string {
    TrimEnd(TrimStart(s))
  }

  /** What `filter(line => line.trim())` drops: a string that trims to ""
      (BlankIffTrimsToEmpty), that is, one made of whitespace only. */
  predicate IsBlank(s: string) {
    AllWhitespace(s)
  }

  /** Whitespace at the front does not decide whether a string is all
      whitespace. */
  lemma AllWhitespaceTail(s: string)
    requires s != [] && IsWhitespace(s[0])
    ensures AllWhitespace(s) <==> AllWhitespace(s[1..])
  {
    if AllWhitespace(s[1..]) {
      forall i | 0 < i < |s| ensures IsWhitespace(s[i]) {
        assert s[i] == s[1..][i - 1];
      }
    }
  }

  /** Whitespace at the back does not decide whether a string is all
      whitespace. */
  lemma AllWhitespaceInit(s: string)
    requires s != [] && IsWhitespace(s[|s| - 1])
    ensures AllWhitespace(s) <==> AllWhitespace(s[..|s| - 1])
  {
    if AllWhitespace(s[..|s| - 1]) {
      forall i | 0 <= i < |s| - 1 ensures IsWhitespace(s[i]) {
        assert s[i] == s[..|s| - 1][i];
      }
    }
  }

  /** Only an all-whitespace string trims away completely from the front. */
  lemma {:induction false} TrimStartEmptyIff(s: string)
    ensures TrimStart(s) == [] <==> AllWhitespace(s)
  {
    if s == [] {
    } else if IsWhitespace(s[0]) {
      TrimStartEmptyIff(s[1..]);
      AllWhitespaceTail(s);
    } else {
      assert TrimStart(s) == s;
    }
  }

  /** Only an all-whitespace string trims away completely from the back. */
  lemma {:induction false} TrimEndEmptyIff(s: string)
    ensures TrimEnd(s) == [] <==> AllWhitespace(s)
  {
    if s == [] {
    } else if IsWhitespace(s[|s| - 1]) {
      TrimEndEmptyIff(s[..|s| - 1]);
      AllWhitespaceInit(s);
    } else {
      assert TrimEnd(s) == s;
    }
  }

  /** `trim()` leaves nothing of a string exactly when it is blank. */
  lemma BlankIffTrimsToEmpty(s: string)
    ensures Trim(s) == [] <==> IsBlank(s)
  {
    var t := TrimStart(s);
    TrimStartEmptyIff(s);
    TrimEndEmptyIff(t);
  }

  /** `s.split(sep)` for a one-character separator. */
  function Split(s: string, sep: char): (parts: seq<string>)
    ensures |parts| >= 1
    ensures forall i :: 0 <= i < |parts| ==> sep !in parts[i]
  {
    if s == [] then [[]]
    else
      var rest := Split(s[1..], sep);
      if s[0] == sep then [[]] + rest
      else [[s[0]] + rest[0]] + rest[1..]
  }

  /** `parts.join(sep)`; the join of no parts is the empty string. */
  function Join(parts: seq<string>, sep: string): string {
    if |parts| == 0 then []
    else if |parts| == 1 then parts[0]
    else parts[0] + sep + Join(parts[1..], sep)
  }

  /** `s.substring(from, to)`: both indices are clamped to the length and
      swapped when they come in the wrong order. */
  function Substring(s: string, from: nat, to: nat): (r: string)
    ensures from <= to <= |s| ==> r == s[from..to]
    ensures to <= from <= |s| ==> r == s[to..from]
    ensures from <= |s| <= to ==> r == s[from..]
    ensures to <= |s| <= from ==> r == s[to..]
    ensures |s| <= from && |s| <= to ==> r == []
  {
    var a := if from < |s| then from else |s|;
    var b := if to < |s| then to else |s|;
    if a <= b then s[a..b] else s[b..a]
  }

  lemma JoinCons(p: string, parts: seq<string>, sep: string)
    requires |parts| >= 1
    ensures Join([p] + parts, sep) == p + sep + Join(parts, sep)
  {
    assert ([p] + parts)[1..] == parts;
  }

  /** Joining the pieces of a split with the separator gives back the string. */
  lemma {:induction false} JoinSplit(s: string, sep: char)
    ensures Join(Split(s, sep), [sep]) == s
  {
    if s != [] {
      var rest := Split(s[1..], sep);
      JoinSplit(s[1..], sep);
      if s[0] == sep {
        JoinCons([], rest, [sep]);
        assert s == [s[0]] + s[1..];
      } else if |rest| == 1 {
        assert s == [s[0]] + s[1..];
      } else {
        assert rest == [rest[0]] + rest[1..];
        JoinCons(rest[0], rest[1..], [sep]);
        JoinCons([s[0]] + rest[0], rest[1..], [sep]);
        assert s == [s[0]] + s[1..];
      }
    }
  }

  /** Splitting a string whose first line is `p` yields `p` glued to the
      first piece of the rest. */
  lemma {:induction false} SplitPrefix(p: string, t: string, sep: char)
    requires sep !in p
    ensures Split(p + t, sep) == [p + Split(t, sep)[0]] + Split(t, sep)[1..]
  {
    var r := Split(t, sep);
    if p != [] {
      assert (p + t)[0] == p[0] && (p + t)[1..] == p[1..] + t;
      SplitPrefix(p[1..], t, sep);
      var rest := Split(p[1..] + t, sep);
      assert rest == [p[1..] + r[0]] + r[1..];
      assert rest[0] == p[1..] + r[0] && rest[1..] == r[1..];
      assert [p[0]] + (p[1..] + r[0]) == p + r[0];
    } else {
      assert p + t == t;
      assert p + r[0] == r[0];
      assert [r[0]] + r[1..] == r;
    }
  }

  /** Splitting a join of separator-free pieces gives back the pieces. */
  lemma {:induction false} SplitJoin(parts: seq<string>, sep: char)
    requires |parts| >= 1
    requires forall i :: 0 <= i < |parts| ==> sep !in parts[i]
    ensures Split(Join(parts, [sep]), sep) == parts
  {
    if |parts| == 1 {
      SplitPrefix(parts[0], [], sep);
      assert Split([], sep) == [[]];
      assert parts[0] + [] == parts[0];
      assert parts == [parts[0]];
      assert Join(parts, [sep]) == parts[0];
    } else {
      var tail := Join(parts[1..], [sep]);
      SplitJoin(parts[1..], sep);
      assert Join(parts, [sep]) == parts[0] + ([sep] + tail);
      SplitPrefix(parts[0], [sep] + tail, sep);
      assert ([sep] + tail)[0] == sep && ([sep] + tail)[1..] == tail;
      assert Split([sep] + tail, sep) == [[]] + parts[1..];
      assert parts[0] + [] == parts[0];
      assert parts == [parts[0]] + parts[1..];
    }
  }

  /** Split of a string with one more character at the end. */
  lemma {:induction false} SplitSnoc(s: string, c: char, sep: char)
    ensures var p := Split(s, sep);
      Split(s + [c], sep) == if c == sep then p + [[]] else p[..|p| - 1] + [p[|p| - 1] + [c]]
  {
    if s == [] {
      assert s + [c] == [c] && [c][0] == c && [c][1..] == [];
      assert Split([], sep) == [[]];
      if c != sep {
        var e := Split([], sep);
        assert Split([c], sep) == [[c] + e[0]] + e[1..];
        assert [c] + e[0] == [c] && e[1..] == [];
      }
    } else {
      assert (s + [c])[0] == s[0] && (s + [c])[1..] == s[1..] + [c];
      SplitSnoc(s[1..], c, sep);
      if s[0] == sep {
        SplitSnocSepFirst(s, c, sep);
      } else {
        SplitSnocOtherFirst(s, c, sep);
      }
    }
  }

  lemma SplitSnocSepFirst(s: string, c: char, sep: char)
    requires s != [] && s[0] == sep
    requires var r := Split(s[1..], sep);
      Split(s[1..] + [c], sep) == if c == sep then r + [[]] else r[..|r| - 1] + [r[|r| - 1] + [c]]
    ensures var p := Split(s, sep);
      Split(s + [c], sep) == if c == sep then p + [[]] else p[..|p| - 1] + [p[|p| - 1] + [c]]
  {
    assert (s + [c])[0] == s[0] && (s + [c])[1..] == s[1..] + [c];
    var r := Split(s[1..], sep);
    assert Split(s, sep) == [[]] + r;
    assert Split(s + [c], sep) == [[]] + Split(s[1..] + [c], sep);
    SnocUnderHead([], r, c, c == sep);
  }

  lemma SplitSnocOtherFirst(s: string, c: char, sep: char)
    requires s != [] && s[0] != sep
    requires var r := Split(s[1..], sep);
      Split(s[1..] + [c], sep) == if c == sep then r + [[]] else r[..|r| - 1] + [r[|r| - 1] + [c]]
    ensures var p := Split(s, sep);
      Split(s + [c], sep) == if c == sep then p + [[]] else p[..|p| - 1] + [p[|p| - 1] + [c]]
  {
    assert (s + [c])[0] == s[0] && (s + [c])[1..] == s[1..] + [c];
    SplitOther(s, sep);
    SplitOther(s + [c], sep);
    GlueHeadSnoc(s[0], Split(s[1..], sep), Split(s[1..] + [c], sep), c, c == sep);
  }

  /** A string that does not start with the separator glues its first
      character to the first part of the rest. */
  lemma SplitOther(s: string, sep: char)
    requires s != [] && s[0] != sep
    ensures var r := Split(s[1..], sep); Split(s, sep) == [[s[0]] + r[0]] + r[1..]
  {
  }

  /** Putting a line in front of a list of lines commutes with extending the
      last line, or adding a new empty one, at the end. */
  lemma SnocUnderHead(h: string, r: seq<string>, c: char, newLine: bool)
    requires |r| >= 1
    ensures var r', p := (if newLine then r + [[]] else r[..|r| - 1] + [r[|r| - 1] + [c]]), [h] + r;
      [h] + r' == if newLine then p + [[]] else p[..|p| - 1] + [p[|p| - 1] + [c]]
  {
  }

  /** Gluing a character to the first line commutes with extending the last
      line, or adding a new empty one, at the end. */
  lemma GlueHeadSnoc(x: char, r: seq<string>, r': seq<string>, c: char, newLine: bool)
    requires |r| >= 1
    requires r' == if newLine then r + [[]] else r[..|r| - 1] + [r[|r| - 1] + [c]]
    ensures var p := [[x] + r[0]] + r[1..];
      [[x] + r'[0]] + r'[1..] == if newLine then p + [[]] else p[..|p| - 1] + [p[|p| - 1] + [c]]
  {
    if newLine {
      assert r'[0] == r[0] && r'[1..] == r[1..] + [[]];
    } else if |r| == 1 {
      assert r' == [r[0] + [c]];
      assert [x] + (r[0] + [c]) == ([x] + r[0]) + [c];
    } else {
      assert r'[0] == r[0] && r'[1..] == r[1..|r| - 1] + [r[|r| - 1] + [c]];
    }
  }

  /** Where the `i`-th part starts in `Join(parts, sep)`. */
  function Offset(parts: seq<string>, sep: string, i: nat): nat
    requires i <= |parts|
  {
    if i == 0 then 0 else Offset(parts, sep, i - 1) + |parts[i - 1]| + |sep|
  }

  lemma {:induction false} OffsetShift(parts: seq<string>, sep: string, i: nat)
    requires 1 <= i <= |parts|
    ensures Offset(parts, sep, i) == |parts[0]| + |sep| + Offset(parts[1..], sep, i - 1)
  {
    if i > 1 {
      OffsetShift(parts, sep, i - 1);
    }
  }

  /** The join of two or more parts is the first part, the separator, then
      the join of the rest. */
  lemma JoinHead(parts: seq<string>, sep: string)
    requires |parts| > 1
    ensures var j, d := Join(parts, sep), |parts[0]| + |sep|;
      |j| >= d && j[..|parts[0]|] == parts[0] && j[|parts[0]|..d] == sep && j[d..] == Join(parts[1..], sep)
  {
    var tail := Join(parts[1..], sep);
    assert Join(parts, sep) == parts[0] + sep + tail;
  }

  /** A slice of a suffix is a slice of the whole, shifted. */
  lemma SliceOfSuffix(a: string, d: nat, x: nat, y: nat)
    requires d <= |a| && x <= y <= |a| - d
    ensures a[d + x..d + y] == a[d..][x..y]
  {
  }

  /** From the offset of the `i`-th part on, the join is the join of the
      parts from the `i`-th on. */
  lemma {:induction false} JoinFrom(parts: seq<string>, sep: string, i: nat)
    requires i < |parts|
    ensures |Join(parts, sep)| >= Offset(parts, sep, i)
    ensures Join(parts, sep)[Offset(parts, sep, i)..] == Join(parts[i..], sep)
  {
    if i == 0 {
      assert parts[0..] == parts;
    } else {
      var j, d := Join(parts, sep), |parts[0]| + |sep|;
      JoinHead(parts, sep);
      JoinFrom(parts[1..], sep, i - 1);
      OffsetShift(parts, sep, i);
      assert parts[1..][i - 1..] == parts[i..];
      var o := Offset(parts[1..], sep, i - 1);
      assert j[d + o..] == j[d..][o..];
    }
  }

  /** Every part stands, unchanged, at its offset in the join, and the parts
      come in their original order: the separator follows each part but the
      last. */
  lemma JoinPlacesPart(parts: seq<string>, sep: string, i: nat)
    requires i < |parts|
    ensures |Join(parts, sep)| >= Offset(parts, sep, i) + |parts[i]|
    ensures Join(parts, sep)[Offset(parts, sep, i)..Offset(parts, sep, i) + |parts[i]|] == parts[i]
    ensures i + 1 < |parts| ==>
      |Join(parts, sep)| >= Offset(parts, sep, i + 1) &&
      Join(parts, sep)[Offset(parts, sep, i) + |parts[i]|..Offset(parts, sep, i + 1)] == sep
  {
    var j, o, rest := Join(parts, sep), Offset(parts, sep, i), parts[i..];
    JoinFrom(parts, sep, i);
    assert rest[0] == parts[i];
    if i + 1 < |parts| {
      JoinHead(rest, sep);
      assert Offset(parts, sep, i + 1) == o + |parts[i]| + |sep|;
      SliceOfSuffix(j, o, |parts[i]|, |parts[i]| + |sep|);
    } else {
      assert rest == [parts[i]];
    }
    SliceOfSuffix(j, o, 0, |parts[i]|);
  }
}
