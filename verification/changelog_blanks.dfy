/**
 White space and version headings: what stripping the end of a changelog, or
 putting white space behind a part of it, does to the entries that are read.
 */
module ChangelogBlanks {
  import opened Basics
  import opened PyText
  import opened ChangelogHeadings
  import opened ChangelogVersions

  // ----- the row a text ends in -----

  /** The text up to its last newline. */
  function Closed(m: string): (p: string)
    ensures EndsLine(p) && p <= m
    ensures '\n' !in m[|p|..]
  {
    if EndsLine(m) then m
    else
      var p := Closed(m[..|m| - 1]);
      assert m[|p|..] == m[..|m| - 1][|p|..] + [m[|m| - 1]];
      p
  }

  /** What stands behind the last newline. */
  function OpenRow(m: string): string {
    m[|Closed(m)|..]
  }

  lemma ClosedAndOpen(m: string)
    ensures m == Closed(m) + OpenRow(m) && EndsLine(Closed(m)) && '\n' !in OpenRow(m)
  {
  }

  lemma {:induction false} OpenRowOf(p: string, row: string)
    requires EndsLine(p) && '\n' !in row
    ensures Closed(p + row) == p && OpenRow(p + row) == row
    decreases |row|
  {
    if row == "" {
      assert p + row == p;
    } else {
      var k := |row| - 1;
      OpenRowOf(p, row[..k]);
      assert (p + row)[..|p + row| - 1] == p + row[..k];
      assert (p + row)[|p + row| - 1] == row[k];
    }
  }

  lemma OpenRowBehind(p: string, v: string)
    requires EndsLine(p)
    ensures OpenRow(p + v) == OpenRow(v)
  {
    ClosedAndOpen(v);
    assert p + v == (p + Closed(v)) + OpenRow(v);
    OpenRowOf(p + Closed(v), OpenRow(v));
  }

  // ----- a heading as a row -----

  ghost predicate SpacesAndTabs(s: string) {
    forall i :: 0 <= i < |s| ==> s[i] in {' ', '\t'}
  }

  /** A row that reads as a heading spells it, with spaces and tabs behind it. */
  lemma ReadSpells(row: string) returns (trail: string)
    requires ReadHeading(row).Some?
    ensures var h := ReadHeading(row).value;
            IsTag(h.tag) && DateShape(h.date) && row == Spell(h) + trail && SpacesAndTabs(trail)
  {
    hide IsTag, DateShape, Until;
    var h := ReadHeading(row).value;
    var tag := row[4..][..Until(row[4..], ']')];
    var rest := row[4 + |tag|..];
    trail := rest[14..];
    HeadingParts(row, Opening(), tag, Dash(), h.date, trail);
  }

  /** A row cut after the opening, the tag, the dash and the date. */
  lemma HeadingParts(row: string, open_: string, tag: string, dash: string, date: string, trail: string)
    requires |open_| == 4 && |dash| == 4 && |date| == 10 && 4 + |tag| + 14 <= |row|
    requires row[..4] == open_ && row[4..][..|tag|] == tag
    requires var rest := row[4 + |tag|..]; rest[..4] == dash && rest[4..14] == date && rest[14..] == trail
    ensures row == open_ + tag + dash + date + trail
  {
    var rest := row[4 + |tag|..];
    assert row == row[..4] + row[4..][..|tag|] + rest;
    assert rest == rest[..4] + rest[4..14] + rest[14..];
    Regrouped(open_, tag, dash, date, trail);
  }

  lemma Regrouped(a: string, b: string, c: string, d: string, e: string)
    ensures a + b + (c + d + e) == a + b + c + d + e
  {
  }

  /** A heading row may end in more spaces and tabs. */
  lemma SpellReads(h: Heading, trail: string)
    requires IsTag(h.tag) && DateShape(h.date) && SpacesAndTabs(trail)
    ensures ReadHeading(Spell(h) + trail) == Some(h)
  {
    hide IsTag, DateShape;
    var row := Spell(h) + trail;
    assert |h.date| == 10 by { DateLength(h.date); }
    assert row[..4] == Opening();
    assert row[4..] == h.tag + (Dash() + h.date + trail);
    TagHasTagChars(h.tag);
    NoBracketInTag(h.tag);
    UntilFirst(h.tag, ']', Dash() + h.date + trail);
    assert row[4..][..|h.tag|] == h.tag;
    var rest := row[4 + |h.tag|..];
    assert rest == Dash() + h.date + trail;
    assert rest[..4] == Dash() && rest[4..14] == h.date && rest[14..] == trail;
    assert forall i :: 14 <= i < |rest| ==> rest[i] == trail[i - 14];
  }

  lemma DateLength(date: string)
    requires DateShape(date)
    ensures |date| == 10
  {
  }

  lemma NoBracketInTag(tag: string)
    requires TagChars(tag)
    ensures ']' !in tag
  {
    assert forall i :: 0 <= i < |tag| ==> TagChar(tag[i]);
  }

  /** No line break and no angle bracket stands in a heading row. */
  lemma HeadingChars(row: string, i: nat)
    requires ReadHeading(row).Some? && i < |row|
    ensures !IsBreak(row[i]) && row[i] != '>' && (IsSpace(row[i]) ==> row[i] in {' ', '\t'})
  {
    var trail := ReadSpells(row);
    var h := ReadHeading(row).value;
    SpellChars(h);
    if i < |Spell(h)| {
      assert row[i] == Spell(h)[i];
    } else {
      assert row[i] == trail[i - |Spell(h)|];
    }
  }

  ghost predicate RowChars(s: string) {
    forall i :: 0 <= i < |s| ==> !IsBreak(s[i]) && s[i] != '>' && (IsSpace(s[i]) ==> s[i] == ' ')
  }

  lemma TagRowChars(tag: string)
    requires TagChars(tag)
    ensures RowChars(tag)
  {
    forall i | 0 <= i < |tag| ensures !IsBreak(tag[i]) && tag[i] != '>' && !IsSpace(tag[i]) {
      assert TagChar(tag[i]);
    }
  }

  lemma DateRowChars(date: string)
    requires DateShape(date)
    ensures RowChars(date)
  {
    forall i | 0 <= i < |date| ensures !IsBreak(date[i]) && date[i] != '>' && !IsSpace(date[i]) {
      assert Digit(date[i]) || date[i] == '-';
    }
  }

  lemma FixedRowChars()
    ensures RowChars(Opening()) && RowChars(Dash())
  {
  }

  lemma SpellChars(h: Heading)
    requires IsTag(h.tag) && DateShape(h.date)
    ensures RowChars(Spell(h))
  {
    hide RowChars, IsTag, DateShape, Opening, Dash;
    TagHasTagChars(h.tag);
    TagRowChars(h.tag);
    DateRowChars(h.date);
    FixedRowChars();
    RowCharsConcat(Opening(), h.tag);
    RowCharsConcat(Opening() + h.tag, Dash());
    RowCharsConcat(Opening() + h.tag + Dash(), h.date);
  }

  lemma RowCharsConcat(a: string, b: string)
    requires RowChars(a) && RowChars(b)
    ensures RowChars(a + b)
  {
  }

  lemma SpellEndsDark(h: Heading)
    requires DateShape(h.date)
    ensures EndsDark(Spell(h))
  {
    var row := Spell(h);
    assert row[|row| - 1] == h.date[9] && Digit(h.date[9]);
  }

  lemma ReadLonger(row: string, y: char)
    requires y in {' ', '\t'} && ReadHeading(row).Some?
    ensures ReadHeading(row + [y]) == ReadHeading(row)
  {
    hide ReadHeading, Spell, IsTag;
    var trail := ReadSpells(row);
    var h := ReadHeading(row).value;
    assert row + [y] == Spell(h) + (trail + [y]);
    SpellReads(h, trail + [y]);
  }

  lemma LastDropped(a: string, y: char, s: string, t: string)
    requires a + [y] == s + t && t != ""
    ensures a == s + t[..|t| - 1]
  {
    assert a == (a + [y])[..|a|] && (s + t)[..|a|] == s + t[..|t| - 1];
  }

  lemma ReadShorter(row: string, y: char)
    requires y in {' ', '\t'} && ReadHeading(row + [y]).Some?
    ensures ReadHeading(row) == ReadHeading(row + [y])
  {
    hide ReadHeading, Spell, IsTag;
    var trail := ReadSpells(row + [y]);
    var h := ReadHeading(row + [y]).value;
    SpellEndsDark(h);
    assert (row + [y])[|row|] == y;
    assert trail == "" ==> row + [y] == Spell(h);
    assert trail != "";
    LastDropped(row, y, Spell(h), trail);
    SpellReads(h, trail[..|trail| - 1]);
  }

  /** One more space or tab makes no heading and unmakes none. */
  lemma ReadBlank(row: string, y: char)
    requires y in {' ', '\t'}
    ensures ReadHeading(row + [y]) == ReadHeading(row)
  {
    hide ReadHeading;
    if ReadHeading(row).Some? {
      ReadLonger(row, y);
    } else if ReadHeading(row + [y]).Some? {
      ReadShorter(row, y);
    }
  }

  /** Any other white space character unmakes a heading. */
  lemma ReadOtherBlank(row: string, y: char)
    requires IsSpace(y) && y !in {' ', '\t'}
    ensures ReadHeading(row + [y]).None?
  {
    if ReadHeading(row + [y]).Some? {
      HeadingChars(row + [y], |row|);
    }
  }

  lemma BlankRow(row: string)
    requires Blank(row)
    ensures ReadHeading(row).None?
  {
    if ReadHeading(row).Some? {
      ReadStart(row);
    }
  }

  // ----- a text that ends in a heading row -----

  /** The text as the heading search sees it ends in a heading. */
  predicate EndsInHeading(s: string) {
    ReadHeading(OpenRow(Mask(s))).Some?
  }

  lemma {:induction false} NoNewline(s: string, t: string)
    requires |s| == |t| && '\n' !in s && forall i :: 0 <= i < |s| ==> t[i] == s[i] || t[i] == ' '
    ensures '\n' !in t
  {
    forall i | 0 <= i < |t| ensures t[i] != '\n' {
      assert s[i] in s;
    }
  }

  lemma MaskHasNoNewline(f: Fence, row: string)
    requires '\n' !in row
    ensures |MaskFrom(f, row)| == |row| && '\n' !in MaskFrom(f, row)
  {
    MaskKeepsOffsets(f, row, 0);
    forall i | 0 <= i < |row| ensures MaskFrom(f, row)[i] == row[i] || MaskFrom(f, row)[i] == ' ' {
      MaskKeepsOffsets(f, row, i);
    }
    NoNewline(row, MaskFrom(f, row));
  }

  /** The open row of a text is masked by itself, in the state before it. */
  lemma OpenRowMask(s: string)
    ensures var f, row := AfterText(Outside, Closed(s)), OpenRow(s);
            && Mask(s) == Mask(Closed(s)) + MaskFrom(f, row)
            && OpenRow(Mask(s)) == MaskFrom(f, row) && Closed(Mask(s)) == Mask(Closed(s))
  {
    hide MaskFrom, AfterText, Closed;
    ClosedAndOpen(s);
    var p, row := Closed(s), OpenRow(s);
    MaskConcat(Outside, p, row);
    MaskEndsLine(p);
    MaskHasNoNewline(AfterText(Outside, p), row);
    OpenRowOf(Mask(p), MaskFrom(AfterText(Outside, p), row));
  }

  /** A masked row that starts with a hash starts with a line outside fences; a break in it stays. */
  lemma FirstLineShows(row: string)
    requires row != "" && |MaskFrom(Outside, row)| == |row| && MaskFrom(Outside, row)[0] == '#'
    ensures var n := LineLength(row);
            if n == |row| then MaskFrom(Outside, row) == row else MaskFrom(Outside, row)[n - 1] == row[n - 1]
  {
    TextStep(Outside, row);
    var n := LineLength(row);
    if n == |row| {
      OneLine(Outside, row);
    }
  }

  lemma {:induction false} LineEndsInBreak(s: string)
    requires s != "" && LineLength(s) < |s|
    ensures IsBreak(s[LineLength(s) - 1])
  {
    if !IsBreak(s[0]) {
      LineEndsInBreak(s[1..]);
    }
  }

  /** What reads as a heading through the mask is not masked. */
  lemma HeadingIsUnmasked(s: string)
    requires EndsInHeading(s)
    ensures OpenRow(Mask(s)) == OpenRow(s)
  {
    hide MaskFrom, AfterText, Closed;
    OpenRowMask(s);
    var f, row := AfterText(Outside, Closed(s)), OpenRow(s);
    ReadStart(OpenRow(Mask(s)));
    MaskKeepsOffsets(f, row, 0);
    VisibleStart(f, row);
    FirstLineShows(row);
    if LineLength(row) < |row| {
      LineEndsInBreak(row);
      HeadingChars(MaskFrom(f, row), LineLength(row) - 1);
    }
  }

  lemma BlankEndsInNoHeading(p: string, w: string)
    requires EndsLine(p) && Blank(w)
    ensures !EndsInHeading(p + w)
  {
    hide MaskFrom;
    if EndsInHeading(p + w) {
      HeadingIsUnmasked(p + w);
      OpenRowBehind(p, w);
      ClosedAndOpen(w);
      BlankConcat(Closed(w), OpenRow(w));
      BlankRow(OpenRow(w));
    }
  }

  lemma {:induction false} InOpenRow(s: string, w: string)
    requires s != "" && s[|s| - 1] != '\n' && '\n' !in w
    ensures s[|s| - 1] in OpenRow(s + w)
  {
    ClosedAndOpen(s);
    var p, row := Closed(s), OpenRow(s);
    assert row == "" ==> s == p;
    assert s[|s| - 1] == row[|row| - 1];
    assert s + w == p + (row + w);
    OpenRowOf(p, row + w);
    assert (row + w)[|row| - 1] == row[|row| - 1];
  }

  /** Behind an angle bracket no heading row ends. */
  lemma BracketEndsInNoHeading(s: string, w: string)
    requires s != "" && s[|s| - 1] == '>' && Blank(w)
    ensures !EndsInHeading(s + w)
  {
    hide MaskFrom;
    if EndsInHeading(s + w) {
      HeadingIsUnmasked(s + w);
      var row := OpenRow(s + w);
      if '\n' in w {
        ClosedAndOpen(w);
        assert Closed(w) == "" ==> w == OpenRow(w);
        assert s + w == (s + Closed(w)) + OpenRow(w);
        OpenRowOf(s + Closed(w), OpenRow(w));
        BlankConcat(Closed(w), OpenRow(w));
        BlankRow(OpenRow(w));
      } else {
        InOpenRow(s, w);
        var i :| 0 <= i < |row| && row[i] == '>';
        HeadingChars(row, i);
      }
    }
  }

  // ----- one white space character behind a text -----

  /** The same headings at the same places. */
  ghost predicate SameHeadings(a: seq<Match>, b: seq<Match>) {
    && |a| == |b|
    && forall i :: 0 <= i < |a| ==> a[i].start == b[i].start && a[i].heading == b[i].heading
  }

  /** b is a, or a with a last match that takes one character more, at the end of a text of length n. */
  ghost predicate Widens(a: seq<Match>, b: seq<Match>, n: nat) {
    || b == a
    || (a != [] && a[|a| - 1].end == n
        && b == a[..|a| - 1] + [Match(a[|a| - 1].start, n + 1, a[|a| - 1].heading)])
  }

  lemma WidensBehind(a: seq<Match>, x: seq<Match>, y: seq<Match>, n: nat)
    requires Widens(x, y, n)
    ensures Widens(a + x, a + y, n)
  {
    if x != y {
      var m := Match(x[|x| - 1].start, n + 1, x[|x| - 1].heading);
      assert (a + x)[..|a + x| - 1] == a + x[..|x| - 1];
      assert a + y == (a + x[..|x| - 1]) + [m];
    }
  }

  lemma OneRowVersions(row: string, at: nat)
    requires '\n' !in row
    ensures Versions(row, at) == RowMatch(row, at)
  {
    if row != "" {
      LastRow(row);
      assert Rows(row) == [row] + [];
      ScanCons(RowMatch, row, [], at);
      assert RowMatch(row, at) + [] == RowMatch(row, at);
    } else {
      EmptyRow(at);
    }
  }

  lemma RowWidens(row: string, y: char, at: nat)
    requires ReadHeading(row + [y]) == ReadHeading(row)
    ensures Widens(RowMatch(row, at), RowMatch(row + [y], at), at + |row|)
  {
    hide ReadHeading;
  }

  lemma RowBehind(p: string, row: string)
    requires EndsLine(p) && '\n' !in row
    ensures Versions(p + row, 0) == Versions(p, 0) + RowMatch(row, |p|)
  {
    hide Versions, RowMatch;
    VersionsConcat(p, row, 0);
    OneRowVersions(row, |p|);
  }

  lemma VersionsBlank(m: string, y: char)
    requires IsSpace(y) && (y in {' ', '\t', '\n'} || ReadHeading(OpenRow(m)).None?)
    ensures Widens(Versions(m, 0), Versions(m + [y], 0), |m|)
  {
    hide ReadHeading, Closed, Versions, RowMatch, Widens;
    if y == '\n' {
      VersionsNewline(m, 0);
      assert [y] == "\n";
      assert Widens(Versions(m, 0), Versions(m, 0), |m|) by { WidensItself(Versions(m, 0), |m|); }
    } else {
      ClosedAndOpen(m);
      var p, row := Closed(m), OpenRow(m);
      if y in {' ', '\t'} {
        ReadBlank(row, y);
      } else {
        ReadOtherBlank(row, y);
      }
      assert m + [y] == p + (row + [y]);
      RowBehind(p, row);
      RowBehind(p, row + [y]);
      RowWidens(row, y, |p|);
      WidensBehind(Versions(p, 0), RowMatch(row, |p|), RowMatch(row + [y], |p|), |m|);
    }
  }

  lemma WidensItself(a: seq<Match>, n: nat)
    ensures Widens(a, a, n)
  {
  }

  lemma EntriesWidened(s: string, x: char, a: seq<Match>, b: seq<Match>)
    requires IsSpace(x) && InOrder(a, 0, |s|) && InOrder(b, 0, |s| + 1) && Widens(a, b, |s|)
    ensures Entries(s + [x], b) == Entries(s, a) && SameHeadings(a, b)
  {
    forall i | 0 <= i < |a| ensures EntryAt(s + [x], b, i) == EntryAt(s, a, i) {
      if i + 1 < |a| {
        SlicesOf(s, [x], a[i].end, EndOf(s, a, i));
      } else if b == a {
        SlicesOf(s, [x], a[i].end, |s| + 1);
        StripBefore(s[a[i].end..], [x]);
        assert s[a[i].end..] == s[a[i].end..|s|];
      } else {
        assert s[|s|..|s|] == "" && (s + [x])[|s| + 1..|s| + 1] == "";
      }
    }
  }

  /** White space behind a text changes no entry, unless it is in the way of a heading at its end. */
  lemma EntriesBlank(s: string, x: char)
    requires IsSpace(x) && (x in {' ', '\t', '\n'} || !EndsInHeading(s))
    ensures AfterText(Outside, s + [x]) == AfterText(Outside, s)
    ensures EntriesOf(s + [x]) == EntriesOf(s) && SameHeadings(MatchesOf(s + [x]), MatchesOf(s))
  {
    hide MaskFrom, AfterText, Versions, Entries;
    var y := BlankMask(Outside, s, x);
    VersionsBlank(Mask(s), y);
    MaskKeepsOffsets(Outside, s, 0);
    OrderOf(s);
    OrderOf(s + [x]);
    EntriesWidened(s, x, MatchesOf(s), MatchesOf(s + [x]));
  }

  // ----- stripping -----

  /**
   The white space at the end can be stripped without making a heading: each of
   its characters is a newline, a space or a tab, or does not stand right behind
   a heading.
   */
  predicate SafeEnd(s: string) {
    forall k :: |RStrip(s)| <= k < |s| ==> s[k] in {' ', '\t', '\n'} || !EndsInHeading(s[..k])
  }

  lemma SafeShorter(s: string)
    requires SafeEnd(s) && s != "" && IsSpace(s[|s| - 1])
    ensures SafeEnd(s[..|s| - 1])
    ensures s[|s| - 1] in {' ', '\t', '\n'} || !EndsInHeading(s[..|s| - 1])
  {
    hide EndsInHeading;
    var t := s[..|s| - 1];
    var w := RStripSplits(t);
    assert RStrip(s) == RStrip(t);
    forall k | |RStrip(t)| <= k < |t| ensures t[k] in {' ', '\t', '\n'} || !EndsInHeading(t[..k]) {
      assert t[k] == s[k] && t[..k] == s[..k];
    }
    var k := |s| - 1;
    assert s[k] in {' ', '\t', '\n'} || !EndsInHeading(s[..k]);
  }

  lemma SameHeadingsAdd(a: seq<Match>, b: seq<Match>, c: seq<Match>)
    requires SameHeadings(a, b) && SameHeadings(b, c)
    ensures SameHeadings(a, c)
  {
  }

  /** Stripping a safe end changes no entry. */
  lemma {:induction false} StrippedReads(s: string)
    requires SafeEnd(s)
    ensures AfterText(Outside, RStrip(s)) == AfterText(Outside, s)
    ensures EntriesOf(RStrip(s)) == EntriesOf(s) && SameHeadings(MatchesOf(s), MatchesOf(RStrip(s)))
    decreases |s|
  {
    hide MatchesOf, EntriesOf, AfterText, EndsInHeading, SafeEnd;
    if s != "" && IsSpace(s[|s| - 1]) {
      var t := s[..|s| - 1];
      SafeShorter(s);
      StrippedReads(t);
      assert s == t + [s[|s| - 1]];
      EntriesBlank(t, s[|s| - 1]);
      SameHeadingsAdd(MatchesOf(s), MatchesOf(t), MatchesOf(RStrip(t)));
    }
  }

  /** White space behind a line end belongs to no entry. */
  lemma {:induction false} BlankBelow(p: string, w: string)
    requires EndsLine(p) && Blank(w)
    ensures AfterText(Outside, p + w) == AfterText(Outside, p)
    ensures EntriesOf(p + w) == EntriesOf(p) && SameHeadings(MatchesOf(p + w), MatchesOf(p))
    decreases |w|
  {
    hide MatchesOf, EntriesOf, AfterText, EndsInHeading;
    if w == "" {
      assert p + w == p;
      assert SameHeadings(MatchesOf(p), MatchesOf(p));
    } else {
      var k := |w| - 1;
      BlankBelow(p, w[..k]);
      BlankEndsInNoHeading(p, w[..k]);
      assert p + w == (p + w[..k]) + [w[k]];
      EntriesBlank(p + w[..k], w[k]);
      SameHeadingsAdd(MatchesOf(p + w), MatchesOf(p + w[..k]), MatchesOf(p));
    }
  }

  /** White space behind an angle bracket can be stripped. */
  lemma BracketIsSafe(s: string, w: string)
    requires s != "" && s[|s| - 1] == '>' && Blank(w)
    ensures SafeEnd(s + w) && RStrip(s + w) == s
  {
    hide EndsInHeading;
    RStripOf(s, w);
    forall k | |s| <= k < |s + w| ensures !EndsInHeading((s + w)[..k]) {
      assert (s + w)[..k] == s + w[..k - |s|];
      BracketEndsInNoHeading(s, w[..k - |s|]);
    }
  }

  /** Behind a line end outside every fence a text ends in a heading if it does so by itself. */
  lemma EndsAlone(top: string, t: string)
    requires EndsLine(top) && AfterText(Outside, top) == Outside
    ensures EndsInHeading(top + t) <==> EndsInHeading(t)
  {
    hide MaskFrom, AfterText;
    MaskConcat(Outside, top, t);
    MaskEndsLine(top);
    OpenRowBehind(Mask(top), Mask(t));
  }

  /** The end of a text is as safe as that of its last part. */
  lemma SafeBelow(top: string, t: string)
    requires EndsLine(top) && AfterText(Outside, top) == Outside && StartsDark(t)
    requires SafeEnd(top + t)
    ensures SafeEnd(t)
  {
    hide EndsInHeading, AfterText;
    assert RStrip(top + t) == top + RStrip(t) by {
      StripsBehind(top, t);
    }
    forall k | |RStrip(t)| <= k < |t| ensures t[k] in {' ', '\t', '\n'} || !EndsInHeading(t[..k]) {
      var at := |top| + k;
      assert (top + t)[at] == t[k] && (top + t)[..at] == top + t[..k];
      assert (top + t)[at] in {' ', '\t', '\n'} || !EndsInHeading((top + t)[..at]);
      EndsAlone(top, t[..k]);
    }
  }

  lemma {:induction false} RStripKeeps(a: string, b: string)
    requires RStrip(b) != ""
    ensures RStrip(a + b) == a + RStrip(b)
    decreases |b|
  {
    assert (a + b)[|a + b| - 1] == b[|b| - 1];
    if IsSpace(b[|b| - 1]) {
      RStripKeeps(a, b[..|b| - 1]);
      assert (a + b)[..|a + b| - 1] == a + b[..|b| - 1];
    }
  }

  lemma DarkStrips(s: string)
    requires StartsDark(s)
    ensures RStrip(s) != "" && RStrip(s)[0] == s[0]
  {
    var w := RStripSplits(s);
    assert RStrip(s) == "" ==> s == w;
  }

  lemma StripsBehind(top: string, t: string)
    requires StartsDark(t)
    ensures RStrip(top + t) == top + RStrip(t)
  {
    DarkStrips(t);
    RStripKeeps(top, t);
  }
}
