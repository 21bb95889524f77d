/**
 `transform_headings` and `mask_fenced_blocks` of `changelog.py`: one fence
 automaton decides, line by line, what a release note's fences hide from
 both.
 */
module ChangelogHeadings {
  import opened Basics
  import opened PyText

  // ----- the fence automaton -----

  /** Outside every fence, or inside one opened by `length` times `mark`. */
  datatype Fence = Outside | Inside(mark: char, length: nat)

  /** How many times `c` stands at the front of `s`. */
  function Run(s: string, c: char): (n: nat)
    ensures n <= |s|
  {
    if s == "" || s[0] != c then 0 else 1 + Run(s[1..], c)
  }

  /** The fence a line would open: three or more backticks or tildes after white space. */
  function Marker(line: string): Fence {
    var stripped := LStrip(line);
    if Run(stripped, '`') >= 3 then Inside('`', Run(stripped, '`'))
    else if Run(stripped, '~') >= 3 then Inside('~', Run(stripped, '~'))
    else Outside
  }

  function Step(f: Fence, line: string): Fence {
    match Marker(line)
    case Outside => f
    case Inside(mark, length) =>
      if f.Outside? then Marker(line)
      else if mark == f.mark && length >= f.length then Outside
      else f
  }

  function After(f: Fence, lines: seq<string>): Fence
    decreases |lines|
  {
    if lines == [] then f else After(Step(f, lines[0]), lines[1..])
  }

  /** Fence lines count as fenced, both the opening and the closing one. */
  predicate Fenced(f: Fence, line: string) {
    f.Inside? || Marker(line).Inside?
  }

  // ----- headings -----

  /** The number of `#` of a heading line, and 0 for any other line. */
  function Level(line: string): nat {
    var n := Run(line, '#');
    if 1 <= n < |line| && line[n] in {' ', '\t'} then n else 0
  }

  function ShiftLine(line: string, delta: int): string {
    if delta < 0 && 3 <= Level(line) <= 6 then line[1..]
    else if delta > 0 && 2 <= Level(line) <= 5 then "#" + line
    else line
  }

  function Shifted(f: Fence, lines: seq<string>, delta: int): seq<string>
    decreases |lines|
  {
    if lines == [] then []
    else [if Fenced(f, lines[0]) then lines[0] else ShiftLine(lines[0], delta)]
         + Shifted(Step(f, lines[0]), lines[1..], delta)
  }

  function Transform(text: string, delta: int): string {
    Concat(Shifted(Outside, SplitLines(text), delta))
  }

  /** How many headings of a level stand outside fences. */
  function Headings(f: Fence, lines: seq<string>, level: nat): nat
    decreases |lines|
  {
    if lines == [] then 0
    else (if !Fenced(f, lines[0]) && Level(lines[0]) == level then 1 else 0)
         + Headings(Step(f, lines[0]), lines[1..], level)
  }

  /** A heading is no fence line and keeps its place when it is shifted. */
  lemma ShiftedLine(f: Fence, line: string, delta: int)
    ensures Marker(ShiftLine(line, delta)) == Marker(line)
    ensures Step(f, ShiftLine(line, delta)) == Step(f, line)
    ensures (ShiftLine(line, delta) == "") == (line == "")
    ensures line != "" ==> ShiftLine(line, delta)[0] == line[0]
    ensures delta > 0 ==> Level(ShiftLine(line, delta)) != 2
    ensures ShiftLine(line, delta) != line ==> |line| >= 2 && line[0] == '#'
  {
    var moved := ShiftLine(line, delta);
    if moved != line {
      assert line[0] == '#' && |line| >= 2;
      if delta < 0 {
        assert Run(line, '#') == 1 + Run(moved, '#');
      } else {
        assert moved[1..] == line;
        assert Run(moved, '#') == 1 + Run(line, '#');
      }
      assert moved[0] == '#';
      assert LStrip(line) == line && LStrip(moved) == moved;
    }
  }

  lemma ShiftBack(line: string, up: int, down: int)
    requires up > 0 > down
    ensures var back := ShiftLine(ShiftLine(line, up), down);
            if Level(line) == 6 then |back| + 1 == |line| else back == line
  {
    var moved := ShiftLine(line, up);
    if moved != line {
      assert moved[1..] == line;
      assert Run(moved, '#') == 1 + Run(line, '#');
      assert moved[Run(moved, '#')] == line[Run(line, '#')];
    }
  }

  lemma ShiftForth(line: string, up: int, down: int)
    requires up > 0 > down
    ensures var forth := ShiftLine(ShiftLine(line, down), up);
            if Level(line) == 2 then |forth| == |line| + 1 else forth == line
  {
    var moved := ShiftLine(line, down);
    if moved != line {
      assert Run(line, '#') == 1 + Run(moved, '#');
      assert moved[Run(moved, '#')] == line[Run(line, '#')];
      assert "#" + moved == line;
    }
  }

  /** Headings come and go without touching the fences. */
  lemma {:induction false} FencesSurvive(f: Fence, lines: seq<string>, delta: int)
    ensures |Shifted(f, lines, delta)| == |lines|
    ensures After(f, Shifted(f, lines, delta)) == After(f, lines)
    decreases |lines|
  {
    if lines != [] {
      var moved := Shifted(f, lines, delta);
      FencesSurvive(Step(f, lines[0]), lines[1..], delta);
      ShiftedLine(f, lines[0], delta);
      assert moved[1..] == Shifted(Step(f, lines[0]), lines[1..], delta);
    }
  }

  lemma {:induction false} NoSecondLevel(f: Fence, lines: seq<string>, delta: int)
    requires delta > 0
    ensures Headings(f, Shifted(f, lines, delta), 2) == 0
    decreases |lines|
  {
    if lines != [] {
      NoSecondLevel(Step(f, lines[0]), lines[1..], delta);
      ShiftedLine(f, lines[0], delta);
      assert Shifted(f, lines, delta)[1..] == Shifted(Step(f, lines[0]), lines[1..], delta);
    }
  }

  /** `back` undoes `out` except for `lost` characters (or adds them, when `adds`). */
  ghost predicate Returns(lines: seq<string>, back: seq<string>, stuck: nat, adds: bool) {
    && (stuck == 0 ==> back == lines)
    && |Concat(back)| == |Concat(lines)| + (if adds then stuck as int else -(stuck as int))
  }

  lemma {:induction false} LinesReturn(f: Fence, lines: seq<string>, out: int, home: int)
    requires out != 0 && home != 0 && (out > 0 <==> home < 0)
    ensures var level := if out > 0 then 6 else 2;
            Returns(lines, Shifted(f, Shifted(f, lines, out), home), Headings(f, lines, level), out < 0)
    decreases |lines|
  {
    if lines != [] {
      var moved := Shifted(f, lines, out);
      var rest := lines[1..];
      LinesReturn(Step(f, lines[0]), rest, out, home);
      ShiftedLine(f, lines[0], out);
      assert moved[1..] == Shifted(Step(f, lines[0]), rest, out);
      if out > 0 {
        ShiftBack(lines[0], out, home);
      } else {
        ShiftForth(lines[0], home, out);
      }
      var back := Shifted(f, moved, home);
      assert back[1..] == Shifted(Step(f, lines[0]), moved[1..], home);
      assert lines == [lines[0]] + rest;
    }
  }

  // ----- what a fence and a heading are -----

  /** After white space the line starts with `length` marks, three or more, and no further one. */
  ghost predicate FenceRow(line: string, mark: char, length: nat) {
    var s := LStrip(line);
    && mark in {'`', '~'} && 3 <= length <= |s|
    && (forall i :: 0 <= i < length ==> s[i] == mark) && (length < |s| ==> s[length] != mark)
  }

  lemma {:induction false} RunIs(s: string, c: char, n: nat)
    ensures Run(s, c) == n <==> n <= |s| && (forall i :: 0 <= i < n ==> s[i] == c) && (n < |s| ==> s[n] != c)
  {
    if s != "" && s[0] == c {
      if n > 0 {
        RunIs(s[1..], c, n - 1);
        assert forall i :: 0 <= i < n - 1 && n <= |s| ==> s[1..][i] == s[i + 1];
        assert forall i :: 1 <= i < n && n <= |s| ==> s[i] == s[1..][i - 1];
      }
    }
  }

  lemma MarkerIff(line: string, mark: char, length: nat)
    ensures Marker(line) == Inside(mark, length) <==> FenceRow(line, mark, length)
  {
    var s := LStrip(line);
    RunIs(s, mark, length);
    RunIs(s, '`', Run(s, '`'));
    RunIs(s, '~', Run(s, '~'));
  }

  lemma {:induction false} AfterLast(f: Fence, lines: seq<string>)
    requires lines != []
    ensures After(f, lines) == Step(After(f, lines[..|lines| - 1]), lines[|lines| - 1])
    decreases |lines|
  {
    if |lines| > 1 {
      AfterLast(Step(f, lines[0]), lines[1..]);
      assert lines[1..][..|lines| - 2] == lines[..|lines| - 1][1..];
    }
  }

  /** The line has marks enough to close such a fence. */
  ghost predicate Closes(line: string, mark: char, length: nat) {
    exists n: nat :: length <= n && FenceRow(line, mark, n)
  }

  /** Line k opens a fence of that mark and length outside every other one, and no later line closes it. */
  ghost predicate OpenSince(lines: seq<string>, k: nat, mark: char, length: nat) {
    && k < |lines| && FenceRow(lines[k], mark, length) && After(Outside, lines[..k]) == Outside
    && forall j :: k < j < |lines| ==> !Closes(lines[j], mark, length)
  }

  lemma StillOpen(lines: seq<string>, k: nat, mark: char, length: nat)
    requires lines != [] && k < |lines| - 1
    ensures OpenSince(lines, k, mark, length) <==>
            && OpenSince(lines[..|lines| - 1], k, mark, length)
            && !Closes(lines[|lines| - 1], mark, length)
  {
    hide FenceRow, Closes, After;
    var front := lines[..|lines| - 1];
    assert front[..k] == lines[..k];
  }

  /** Behind some lines a fence is open if and only if one of them opened it and none after that one closed it. */
  lemma {:induction false} FenceOpenIff(lines: seq<string>, mark: char, length: nat)
    ensures After(Outside, lines) == Inside(mark, length) <==> exists k: nat :: OpenSince(lines, k, mark, length)
    decreases |lines|
  {
    hide FenceRow, Closes, OpenSince, Marker, After;
    if lines == [] {
      NothingOpen(lines, mark, length);
    } else {
      var front, last := lines[..|lines| - 1], lines[|lines| - 1];
      AfterLast(Outside, lines);
      FenceOpenIff(front, mark, length);
      forall k: nat | k < |front| ensures OpenSince(lines, k, mark, length) <==>
          OpenSince(front, k, mark, length) && !Closes(last, mark, length)
      {
        StillOpen(lines, k, mark, length);
      }
      LastOpens(lines, mark, length);
      LastCloses(After(Outside, front), last, mark, length);
    }
  }

  lemma NothingOpen(lines: seq<string>, mark: char, length: nat)
    requires lines == []
    ensures After(Outside, lines) == Outside && !exists k: nat :: OpenSince(lines, k, mark, length)
  {
  }

  /** The last line opens a fence outside of others. */
  lemma LastOpens(lines: seq<string>, mark: char, length: nat)
    requires lines != []
    ensures var last := |lines| - 1;
            && (OpenSince(lines, last, mark, length) <==>
                After(Outside, lines[..last]) == Outside && FenceRow(lines[last], mark, length))
            && (forall k: nat :: k < last && OpenSince(lines, k, mark, length) ==>
                  OpenSince(lines[..last], k, mark, length))
            && (forall k: nat :: OpenSince(lines, k, mark, length) ==> k <= last)
            && (forall k: nat :: OpenSince(lines[..last], k, mark, length) ==> k < last)
  {
    hide FenceRow, Closes, After;
    forall k: nat | k < |lines| - 1 && OpenSince(lines, k, mark, length)
      ensures OpenSince(lines[..|lines| - 1], k, mark, length)
    {
      StillOpen(lines, k, mark, length);
    }
  }

  lemma LastCloses(f: Fence, last: string, mark: char, length: nat)
    ensures Step(f, last) == Inside(mark, length) <==>
            || (f == Outside && FenceRow(last, mark, length))
            || (f == Inside(mark, length) && !Closes(last, mark, length))
  {
    hide FenceRow, Marker;
    MarkerIff(last, mark, length);
    forall n: nat ensures Marker(last) == Inside(mark, n) <==> FenceRow(last, mark, n) {
      MarkerIff(last, mark, n);
    }
  }

  /** A heading of that level: so many hashes, then a space or a tab. */
  ghost predicate HeadingRow(line: string, level: nat) {
    && 1 <= level < |line| && (forall i :: 0 <= i < level ==> line[i] == '#') && line[level] in {' ', '\t'}
  }

  lemma LevelIff(line: string, level: nat)
    requires level >= 1
    ensures Level(line) == level <==> HeadingRow(line, level)
  {
    RunIs(line, '#', level);
    RunIs(line, '#', Run(line, '#'));
  }

  /** Out, headings of level 2 to 5 get a hash; home, those of level 3 to 6 lose one; no other line changes. */
  lemma ShiftLineIff(line: string, delta: int)
    requires delta != 0
    ensures var r := ShiftLine(line, delta);
            if exists level :: (if delta > 0 then 2 <= level <= 5 else 3 <= level <= 6) && HeadingRow(line, level) then
              if delta > 0 then r == "#" + line else line == "#" + r
            else r == line
  {
    hide HeadingRow;
    forall level: nat | level >= 1 ensures Level(line) == level <==> HeadingRow(line, level) {
      LevelIff(line, level);
    }
    if Level(line) > 0 {
      LevelIff(line, Level(line));
      RunIs(line, '#', Run(line, '#'));
    }
  }

  // ----- lines survive a shift -----

  /** What follows the first line matters to its length only through its first character. */
  lemma {:induction false} LineLengthBefore(s: string, tail: string)
    requires s != ""
    requires var rest := s[LineLength(s)..];
             (rest == "" <==> tail == "") && (rest != "" ==> rest[0] == tail[0])
    ensures LineLength(s[..LineLength(s)] + tail) == LineLength(s)
  {
    var n := LineLength(s);
    var t := s[..n] + tail;
    if IsBreak(s[0]) || |s| == 1 {
      if |s| > 1 {
        assert t[1] == s[1];
      }
    } else {
      assert s[1..][LineLength(s[1..])..] == s[n..];
      LineLengthBefore(s[1..], tail);
      assert t[1..] == s[1..][..n - 1] + tail;
    }
  }

  lemma ShiftedFirstLine(line: string, delta: int, tail: string)
    requires line + tail != "" && line != "" && LineLength(line + tail) == |line|
    ensures var moved := ShiftLine(line, delta); LineLength(moved + tail) == |moved|
  {
    var moved := ShiftLine(line, delta);
    ShiftedLine(Outside, line, delta);
    if moved != line {
      if delta < 0 {
        assert (line + tail)[1..] == moved + tail;
      } else {
        assert (moved + tail)[1..] == line + tail;
        assert moved[0] == '#';
      }
    }
  }

  /** The shifted lines are the lines of the shifted text. */
  lemma {:induction false} LinesOfShifted(f: Fence, s: string, delta: int)
    ensures var moved := Shifted(f, SplitLines(s), delta);
            SplitLines(Concat(moved)) == moved
    ensures var text := Concat(Shifted(f, SplitLines(s), delta));
            (text == "" <==> s == "") && (s != "" ==> text[0] == s[0])
    decreases |s|
  {
    if s != "" {
      var n := LineLength(s);
      var line, rest := s[..n], s[n..];
      LinesOfShifted(Step(f, line), rest, delta);
      var tail := Concat(Shifted(Step(f, line), SplitLines(rest), delta));
      LineLengthBefore(s, tail);
      ShiftedFirstLine(line, delta, tail);
      ShiftedLine(f, line, delta);
      FirstLineSplits(if Fenced(f, line) then line else ShiftLine(line, delta), tail);
    }
  }

  lemma FirstLineSplits(line: string, tail: string)
    requires line != "" && LineLength(line + tail) == |line|
    ensures SplitLines(line + tail) == [line] + SplitLines(tail)
  {
    assert (line + tail)[..|line|] == line && (line + tail)[|line|..] == tail;
  }

  /**
   Shifting the headings of a text out and home again gives the text back
   exactly when no heading sits on the level the way out leaves alone and
   the way home moves: level 6 out of a note, level 2 out of an entry.
   */
  lemma ShiftsAreInverse(text: string, out: int, home: int)
    requires out != 0 && home != 0 && (out > 0 <==> home < 0)
    ensures Transform(Transform(text, out), home) == text
            <==> Headings(Outside, SplitLines(text), if out > 0 then 6 else 2) == 0
  {
    var lines := SplitLines(text);
    SplitLinesSpell(text);
    LinesOfShifted(Outside, text, out);
    LinesReturn(Outside, lines, out, home);
  }

  /** A level 6 heading does not come back. */
  lemma SixthLevelIsLost()
    ensures Transform(Transform("###### x", 1), -1) != "###### x"
  {
    var text := "###### x";
    assert LineLength(text[7..]) == 1;
    assert LineLength(text[6..]) == 2;
    assert LineLength(text[5..]) == 3;
    assert LineLength(text[4..]) == 4;
    assert LineLength(text[3..]) == 5;
    assert LineLength(text[2..]) == 6;
    assert LineLength(text[1..]) == 7;
    assert text[..8] == text && text[8..] == "";
    assert SplitLines(text) == [text];
    assert Run(text[6..], '#') == 0;
    assert Run(text[4..], '#') == 2;
    assert Run(text[2..], '#') == 4;
    assert Level(text) == 6 && Marker(text) == Outside;
    assert Headings(Outside, [text], 6) == 1;
    ShiftsAreInverse(text, 1, -1);
  }

  // ----- masking -----

  function MaskLine(line: string): (masked: string)
    ensures |masked| == |line|
  {
    seq(|line|, i requires 0 <= i < |line| => if line[i] in {'\r', '\n'} then line[i] else ' ')
  }

  function MaskLines(f: Fence, lines: seq<string>): seq<string>
    decreases |lines|
  {
    if lines == [] then []
    else [if Fenced(f, lines[0]) then MaskLine(lines[0]) else lines[0]] + MaskLines(Step(f, lines[0]), lines[1..])
  }

  function MaskFrom(f: Fence, text: string): string {
    Concat(MaskLines(f, SplitLines(text)))
  }

  function Mask(text: string): string {
    MaskFrom(Outside, text)
  }

  /** Whether the line that holds the `i`-th character is fenced. */
  predicate FencedAt(f: Fence, lines: seq<string>, i: nat)
    decreases |lines|
  {
    lines != []
    && if i < |lines[0]| then Fenced(f, lines[0]) else FencedAt(Step(f, lines[0]), lines[1..], i - |lines[0]|)
  }

  lemma {:induction false} MaskLinesAt(f: Fence, lines: seq<string>, i: nat)
    ensures |Concat(MaskLines(f, lines))| == |Concat(lines)|
    ensures i < |Concat(lines)| ==>
              var c := Concat(lines)[i];
              Concat(MaskLines(f, lines))[i]
              == if FencedAt(f, lines, i) && c !in {'\r', '\n'} then ' ' else c
    decreases |lines|
  {
    if lines != [] {
      var n := |lines[0]|;
      MaskLinesAt(Step(f, lines[0]), lines[1..], if i < n then 0 else i - n);
    }
  }

  /**
   Masking keeps every offset: a character of a fenced line becomes a
   space unless it ends a line, and every other character stays.
   */
  lemma MaskKeepsOffsets(f: Fence, text: string, i: nat)
    ensures |MaskFrom(f, text)| == |text|
    ensures i < |text| ==>
              MaskFrom(f, text)[i]
              == if FencedAt(f, SplitLines(text), i) && text[i] !in {'\r', '\n'} then ' ' else text[i]
  {
    SplitLinesSpell(text);
    MaskLinesAt(f, SplitLines(text), i);
  }

  /** Line i opens or closes a fence, or stands in one that an earlier line opened. */
  ghost predicate Hidden(lines: seq<string>, i: nat)
    requires i < |lines|
  {
    || (exists mark, length: nat :: FenceRow(lines[i], mark, length))
    || (exists k: nat, mark, length: nat :: OpenSince(lines[..i], k, mark, length))
  }

  lemma HiddenIff(lines: seq<string>, i: nat)
    requires i < |lines|
    ensures Fenced(After(Outside, lines[..i]), lines[i]) <==> Hidden(lines, i)
  {
    hide FenceRow, OpenSince, Marker, After;
    var f, m := After(Outside, lines[..i]), Marker(lines[i]);
    if f.Inside? {
      FenceOpenIff(lines[..i], f.mark, f.length);
    } else if m.Inside? {
      MarkerIff(lines[i], m.mark, m.length);
    }
    if mark, length: nat :| FenceRow(lines[i], mark, length) {
      MarkerIff(lines[i], mark, length);
    }
    if k: nat, mark, length: nat :| OpenSince(lines[..i], k, mark, length) {
      FenceOpenIff(lines[..i], mark, length);
    }
  }

  lemma {:induction false} RowAt(f: Fence, lines: seq<string>, i: nat, delta: int)
    requires i < |lines|
    ensures |Shifted(f, lines, delta)| == |lines| == |MaskLines(f, lines)|
    ensures var fenced := Fenced(After(f, lines[..i]), lines[i]);
            && Shifted(f, lines, delta)[i] == (if fenced then lines[i] else ShiftLine(lines[i], delta))
            && MaskLines(f, lines)[i] == (if fenced then MaskLine(lines[i]) else lines[i])
    decreases |lines|
  {
    hide Fenced, ShiftLine, MaskLine, Step;
    var rest := lines[1..];
    if i > 0 {
      RowAt(Step(f, lines[0]), rest, i - 1, delta);
      assert lines[..i][1..] == rest[..i - 1];
    } else if rest != [] {
      RowAt(Step(f, lines[0]), rest, 0, delta);
    }
  }

  /** Exactly the lines that no fence hides are shifted, and exactly those that one hides are masked. */
  lemma RowsTell(lines: seq<string>, i: nat, delta: int)
    requires i < |lines|
    ensures |Shifted(Outside, lines, delta)| == |lines| == |MaskLines(Outside, lines)|
    ensures Shifted(Outside, lines, delta)[i] == if Hidden(lines, i) then lines[i] else ShiftLine(lines[i], delta)
    ensures MaskLines(Outside, lines)[i] == if Hidden(lines, i) then MaskLine(lines[i]) else lines[i]
  {
    hide Hidden, Fenced, ShiftLine, MaskLine;
    HiddenIff(lines, i);
    RowAt(Outside, lines, i, delta);
  }

  // ----- texts put together at a line end -----

  function AfterText(f: Fence, text: string): Fence {
    After(f, SplitLines(text))
  }

  lemma {:induction false} AfterLines(f: Fence, a: seq<string>, b: seq<string>)
    ensures After(f, a + b) == After(After(f, a), b)
    decreases |a|
  {
    if a == [] {
      assert a + b == b;
    } else {
      AfterLines(Step(f, a[0]), a[1..], b);
      assert (a + b)[1..] == a[1..] + b;
    }
  }

  lemma {:induction false} MaskedLines(f: Fence, a: seq<string>, b: seq<string>)
    ensures MaskLines(f, a + b) == MaskLines(f, a) + MaskLines(After(f, a), b)
    decreases |a|
  {
    if a == [] {
      assert a + b == b;
    } else {
      var g := Step(f, a[0]);
      MaskedLines(g, a[1..], b);
      PrefixSlices(a, b, 1);
      ConsConcat(if Fenced(f, a[0]) then MaskLine(a[0]) else a[0],
                 MaskLines(g, a[1..]), MaskLines(After(g, a[1..]), b));
    }
  }

  lemma {:induction false} HeadingsLines(f: Fence, a: seq<string>, b: seq<string>, level: nat)
    ensures Headings(f, a + b, level) == Headings(f, a, level) + Headings(After(f, a), b, level)
    decreases |a|
  {
    if a == [] {
      assert a + b == b;
    } else {
      HeadingsLines(Step(f, a[0]), a[1..], b, level);
      assert (a + b)[1..] == a[1..] + b;
    }
  }

  lemma MaskConcat(f: Fence, a: string, b: string)
    requires EndsLine(a)
    ensures AfterText(f, a + b) == AfterText(AfterText(f, a), b)
    ensures MaskFrom(f, a + b) == MaskFrom(f, a) + MaskFrom(AfterText(f, a), b)
  {
    SplitLinesConcat(a, b);
    AfterLines(f, SplitLines(a), SplitLines(b));
    MaskedLines(f, SplitLines(a), SplitLines(b));
    JoinConcat(MaskLines(f, SplitLines(a)), MaskLines(AfterText(f, a), SplitLines(b)));
  }

  // ----- one white space character more -----

  lemma {:induction false} LineLengthInside(s: string, b: string)
    requires s != "" && LineLength(s) < |s|
    ensures LineLength(s + b) == LineLength(s)
  {
    if !IsBreak(s[0]) {
      LineLengthInside(s[1..], b);
      assert (s + b)[1..] == s[1..] + b;
    }
  }

  lemma {:induction false} LastLineLength(s: string, x: char)
    requires s != "" && LineLength(s) == |s|
    ensures |s| <= LineLength(s + [x])
  {
    if !IsBreak(s[0]) && |s| > 1 {
      LastLineLength(s[1..], x);
      assert (s + [x])[1..] == s[1..] + [x];
    }
  }

  lemma {:induction false} RunBefore(s: string, c: char, x: char)
    requires c != x
    ensures Run(s + [x], c) == Run(s, c)
  {
    if s != "" {
      RunBefore(s[1..], c, x);
      assert (s + [x])[1..] == s[1..] + [x];
    }
  }

  lemma {:induction false} LStripBefore(s: string, x: char)
    requires IsSpace(x)
    ensures LStrip(s + [x]) == if LStrip(s) == "" then "" else LStrip(s) + [x]
  {
    if s == "" {
      assert (s + [x])[1..] == "";
    } else if IsSpace(s[0]) {
      LStripBefore(s[1..], x);
      assert (s + [x])[1..] == s[1..] + [x];
    }
  }

  lemma BlankMarker(line: string, x: char)
    requires IsSpace(x)
    ensures Marker(line + [x]) == Marker(line)
  {
    LStripBefore(line, x);
    RunBefore(LStrip(line), '`', x);
    RunBefore(LStrip(line), '~', x);
  }

  /** How a white space character may look in the mask. */
  predicate Masks(x: char, y: char) {
    y == x || (y == ' ' && x !in {'\r', '\n'})
  }

  lemma TextStep(f: Fence, s: string)
    requires s != ""
    ensures var n := LineLength(s);
            && AfterText(f, s) == AfterText(Step(f, s[..n]), s[n..])
            && MaskFrom(f, s) == (if Fenced(f, s[..n]) then MaskLine(s[..n]) else s[..n])
                                 + MaskFrom(Step(f, s[..n]), s[n..])
  {
    var n := LineLength(s);
    var lines := SplitLines(s);
    assert lines[0] == s[..n] && lines[1..] == SplitLines(s[n..]);
    var masked := MaskLines(f, lines);
    assert masked[1..] == MaskLines(Step(f, s[..n]), SplitLines(s[n..]));
  }

  lemma OneLine(f: Fence, s: string)
    requires s != "" && LineLength(s) == |s|
    ensures AfterText(f, s) == Step(f, s)
    ensures MaskFrom(f, s) == if Fenced(f, s) then MaskLine(s) else s
  {
    TextStep(f, s);
    assert s[..|s|] == s && s[|s|..] == "";
    var masked := MaskFrom(Step(f, s), "");
    assert masked == "";
  }

  lemma BlankMaskLine(line: string, x: char)
    ensures MaskLine(line + [x]) == MaskLine(line) + MaskLine([x])
    ensures |MaskLine([x])| == 1 && Masks(x, MaskLine([x])[0]) && Masks(x, x)
  {
  }

  /** A white space character as a line of its own. */
  lemma LoneBlank(f: Fence, x: char) returns (y: char)
    requires IsSpace(x)
    ensures AfterText(f, [x]) == f && MaskFrom(f, [x]) == [y] && Masks(x, y)
  {
    BlankMarker("", x);
    assert "" + [x] == [x];
    OneLine(f, [x]);
    BlankMaskLine("", x);
    y := MaskFrom(f, [x])[0];
  }

  /** A line without an end takes the character in. */
  lemma OpenLine(f: Fence, s: string, x: char) returns (y: char)
    requires IsSpace(x) && s != "" && LineLength(s) == |s| && LineLength(s + [x]) == |s| + 1
    ensures AfterText(f, s + [x]) == AfterText(f, s)
    ensures MaskFrom(f, s + [x]) == MaskFrom(f, s) + [y] && Masks(x, y)
  {
    hide AfterText, MaskFrom, LineLength, Marker, MaskLine;
    OneLine(f, s);
    OneLine(f, s + [x]);
    BlankMarker(s, x);
    BlankMaskLine(s, x);
    y := if Fenced(f, s) then MaskLine([x])[0] else x;
  }

  /** Behind a line that has its end the character starts a line. */
  lemma EndedLine(f: Fence, s: string, x: char) returns (y: char)
    requires IsSpace(x) && s != "" && LineLength(s + [x]) == |s|
    ensures AfterText(f, s + [x]) == Step(f, s)
    ensures MaskFrom(f, s + [x]) == (if Fenced(f, s) then MaskLine(s) else s) + [y] && Masks(x, y)
  {
    var t := s + [x];
    TextStep(f, t);
    assert t[..|s|] == s && t[|s|..] == [x];
    y := LoneBlank(Step(f, s), x);
  }

  lemma LastLine(f: Fence, s: string, x: char) returns (y: char)
    requires IsSpace(x) && s != "" && LineLength(s) == |s|
    ensures AfterText(f, s + [x]) == AfterText(f, s)
    ensures MaskFrom(f, s + [x]) == MaskFrom(f, s) + [y] && Masks(x, y)
  {
    hide AfterText, MaskFrom, Marker, MaskLine;
    LastLineLength(s, x);
    if LineLength(s + [x]) == |s| {
      OneLine(f, s);
      y := EndedLine(f, s, x);
    } else {
      y := OpenLine(f, s, x);
    }
  }

  /** White space at the end changes neither the state nor the mask before it. */
  lemma {:induction false} BlankMask(f: Fence, s: string, x: char) returns (y: char)
    requires IsSpace(x)
    ensures AfterText(f, s + [x]) == AfterText(f, s)
    ensures MaskFrom(f, s + [x]) == MaskFrom(f, s) + [y] && Masks(x, y)
    decreases |s|
  {
    if s == "" {
      y := LoneBlank(f, x);
      assert s + [x] == [x];
    } else {
      var n := LineLength(s);
      if n < |s| {
        LineLengthInside(s, [x]);
        PrefixSlices(s, [x], n);
        y := BlankMask(Step(f, s[..n]), s[n..], x);
        TextStep(f, s);
        TextStep(f, s + [x]);
      } else {
        y := LastLine(f, s, x);
      }
    }
  }

  // ----- the loops of the source -----

  /** `transform_headings` */
  method TransformHeadings(markdown: string, delta: int) returns (text: string)
    ensures text == Transform(markdown, delta)
  {
    var transformed: seq<string> := [];
    var fenceCharacter: Option<char> := None;
    var fenceLength := 0;
    var lines := SplitLines(markdown);
    ghost var f := Outside;
    ghost var rest := lines;
    for i := 0 to |lines|
      invariant rest == lines[i..]
      invariant f.Outside? <==> fenceCharacter.None?
      invariant f.Inside? ==> fenceCharacter == Some(f.mark) && fenceLength == f.length
      invariant transformed + Shifted(f, rest, delta) == Shifted(Outside, lines, delta)
    {
      var line := lines[i];
      var fence := Marker(line);
      assert rest[0] == line;
      ghost var now := if Fenced(f, line) then line else ShiftLine(line, delta);
      Shift(transformed, now, Shifted(Step(f, line), rest[1..], delta));
      if fence.Inside? {
        if fenceCharacter.None? {
          fenceCharacter, fenceLength := Some(fence.mark), fence.length;
        } else if fence.mark == fenceCharacter.value && fence.length >= fenceLength {
          fenceCharacter, fenceLength := None, 0;
        }
      } else if fenceCharacter.None? {
        line := ShiftLine(line, delta);
      }
      transformed := transformed + [line];
      f := Step(f, lines[i]);
      rest := rest[1..];
    }
    assert transformed + [] == transformed;
    text := Concat(transformed);
  }

  /** `mask_fenced_blocks` */
  method MaskFencedBlocks(markdown: string) returns (text: string)
    ensures text == Mask(markdown)
  {
    var masked: seq<string> := [];
    var fenceCharacter: Option<char> := None;
    var fenceLength := 0;
    var lines := SplitLines(markdown);
    ghost var f := Outside;
    ghost var rest := lines;
    for i := 0 to |lines|
      invariant rest == lines[i..]
      invariant f.Outside? <==> fenceCharacter.None?
      invariant f.Inside? ==> fenceCharacter == Some(f.mark) && fenceLength == f.length
      invariant masked + MaskLines(f, rest) == MaskLines(Outside, lines)
    {
      var line := lines[i];
      var fence := Marker(line);
      var insideFence := fenceCharacter.Some?;
      assert rest[0] == line;
      ghost var now := if Fenced(f, line) then MaskLine(line) else line;
      Shift(masked, now, MaskLines(Step(f, line), rest[1..]));
      if fence.Inside? && !insideFence {
        fenceCharacter, fenceLength := Some(fence.mark), fence.length;
        insideFence := true;
      } else if fence.Inside? && insideFence && fence.mark == fenceCharacter.value && fence.length >= fenceLength {
        fenceCharacter, fenceLength := None, 0;
      }
      masked := masked + [if insideFence then MaskLine(line) else line];
      f := Step(f, line);
      rest := rest[1..];
    }
    assert masked + [] == masked;
    text := Concat(masked);
  }
}
