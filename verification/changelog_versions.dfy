/**
 Version headings and the entries between them: `VERSION_HEADING_RE`,
 `version_matches` and the slices `extract_release_notes` takes.
 */
module ChangelogVersions {
  import opened Basics
  import opened PyText
  import opened ChangelogHeadings

  // ----- tags and dates -----

  predicate Digit(c: char) {
    '0' <= c <= '9'
  }

  predicate TagChar(c: char) {
    Digit(c) || 'a' <= c <= 'z' || 'A' <= c <= 'Z' || c == '.' || c == '-'
  }

  function Digits(s: string): (n: nat)
    ensures n <= |s|
    ensures forall i :: 0 <= i < n ==> Digit(s[i])
  {
    if s == "" || !Digit(s[0]) then 0 else 1 + Digits(s[1..])
  }

  /** A number followed by a dot, at the front of `s`. */
  predicate Dotted(s: string) {
    1 <= Digits(s) < |s| && s[Digits(s)] == '.'
  }

  function AfterDot(s: string): string
    requires Dotted(s)
  {
    s[Digits(s) + 1..]
  }

  predicate TagEnd(s: string) {
    s == "" || (|s| >= 2 && s[0] in {'.', '-'} && forall i :: 1 <= i < |s| ==> TagChar(s[i]))
  }

  predicate IsPatch(s: string) {
    1 <= Digits(s) && TagEnd(s[Digits(s)..])
  }

  predicate IsMinor(s: string) {
    Dotted(s) && IsPatch(AfterDot(s))
  }

  predicate IsMajor(s: string) {
    Dotted(s) && IsMinor(AfterDot(s))
  }

  /** `TAG_PATTERN` */
  predicate IsTag(s: string) {
    s != "" && s[0] == 'v' && IsMajor(s[1..])
  }

  /** The date part of the pattern: four, two and two digits. */
  predicate DateShape(s: string) {
    |s| == 10 && forall i :: 0 <= i < 10 ==> if i == 4 || i == 7 then s[i] == '-' else Digit(s[i])
  }

  function Number(s: string): nat
    requires forall i :: 0 <= i < |s| ==> Digit(s[i])
  {
    if s == "" then 0
    else
      var last := s[|s| - 1];
      assert Digit(last);
      10 * Number(s[..|s| - 1]) + (last as nat - '0' as nat)
  }

  function DaysIn(year: nat, month: nat): nat {
    if month == 2 then (if year % 4 == 0 && (year % 100 != 0 || year % 400 == 0) then 29 else 28)
    else if month in {4, 6, 9, 11} then 30
    else 31
  }

  /** `validate_iso_date`: a calendar day spelt as `isoformat` spells it. */
  predicate IsoDate(s: string) {
    && DateShape(s)
    && var year, month, day := Number(s[..4]), Number(s[5..7]), Number(s[8..]);
    1 <= year && 1 <= month <= 12 && 1 <= day <= DaysIn(year, month)
  }

  ghost predicate Numeral(s: string) {
    s != "" && forall i :: 0 <= i < |s| ==> Digit(s[i])
  }

  ghost predicate TagSuffix(s: string) {
    s != "" ==> |s| >= 2 && s[0] in {'.', '-'} && forall i :: 1 <= i < |s| ==> TagChar(s[i])
  }

  /** The parts of a tag: three numerals, and perhaps a suffix. */
  ghost predicate TagParts(s: string, major: string, minor: string, patch: string, suffix: string) {
    && s == "v" + (major + "." + (minor + "." + (patch + suffix)))
    && Numeral(major) && Numeral(minor) && Numeral(patch)
    && TagSuffix(suffix)
  }

  lemma {:induction false} DigitsOf(a: string, rest: string)
    requires Numeral(a) && (rest == "" || !Digit(rest[0]))
    ensures Digits(a + rest) == |a|
    ensures (a + rest)[|a|..] == rest
  {
    assert (a + rest)[1..] == a[1..] + rest;
    if |a| > 1 {
      DigitsOf(a[1..], rest);
    } else {
      assert a[1..] + rest == rest;
    }
  }

  lemma DottedOf(a: string, rest: string)
    requires Numeral(a)
    ensures Dotted(a + "." + rest) && AfterDot(a + "." + rest) == rest
  {
    DigitsOf(a, "." + rest);
    assert a + "." + rest == a + ("." + rest);
    assert (a + "." + rest)[|a| + 1..] == rest;
  }

  lemma PatchSplits(s: string)
    requires IsPatch(s)
    ensures s == s[..Digits(s)] + s[Digits(s)..] && Numeral(s[..Digits(s)]) && TagSuffix(s[Digits(s)..])
  {
  }

  lemma DottedSplits(s: string)
    requires Dotted(s)
    ensures s == s[..Digits(s)] + "." + AfterDot(s) && Numeral(s[..Digits(s)])
  {
  }

  lemma PartsMakeTag(s: string, major: string, minor: string, patch: string, suffix: string)
    requires TagParts(s, major, minor, patch, suffix)
    ensures IsTag(s)
  {
    DigitsOf(patch, suffix);
    assert IsPatch(patch + suffix);
    DottedOf(minor, patch + suffix);
    DottedOf(major, minor + "." + (patch + suffix));
    assert s[1..] == major + "." + (minor + "." + (patch + suffix));
  }

  lemma TagHasParts(s: string)
    requires IsTag(s)
    ensures exists major, minor, patch, suffix :: TagParts(s, major, minor, patch, suffix)
  {
    hide Digits, Numeral, TagSuffix, IsPatch;
    var t := s[1..];
    DottedSplits(t);
    DottedSplits(AfterDot(t));
    var u := AfterDot(AfterDot(t));
    PatchSplits(u);
    assert s == "v" + t;
    assert TagParts(s, t[..Digits(t)], AfterDot(t)[..Digits(AfterDot(t))], u[..Digits(u)], u[Digits(u)..]);
  }

  /** A tag is what the whole pattern matches: a `v`, three numerals with dots between them, and perhaps a suffix. */
  lemma IsTagIff(s: string)
    ensures IsTag(s) <==>
            exists major, minor, patch, suffix :: TagParts(s, major, minor, patch, suffix)
  {
    if IsTag(s) {
      TagHasParts(s);
    }
    if major, minor, patch, suffix :| TagParts(s, major, minor, patch, suffix) {
      PartsMakeTag(s, major, minor, patch, suffix);
    }
  }

  ghost predicate TagChars(s: string) {
    forall i :: 0 <= i < |s| ==> TagChar(s[i])
  }

  lemma NumberChars(s: string)
    requires TagChars(s[Digits(s)..])
    ensures TagChars(s)
  {
    forall i | 0 <= i < |s| ensures TagChar(s[i]) {
      if i >= Digits(s) {
        assert s[i] == s[Digits(s)..][i - Digits(s)];
      }
    }
  }

  lemma DottedChars(s: string)
    requires Dotted(s) && TagChars(AfterDot(s))
    ensures TagChars(s)
  {
    var rest := s[Digits(s)..];
    forall i | 0 <= i < |rest| ensures TagChar(rest[i]) {
      if i > 0 {
        assert rest[i] == AfterDot(s)[i - 1];
      }
    }
    NumberChars(s);
  }

  lemma MajorHasTagChars(s: string)
    requires IsMajor(s)
    ensures TagChars(s)
  {
    NumberChars(AfterDot(AfterDot(s)));
    DottedChars(AfterDot(s));
    DottedChars(s);
  }

  lemma TagHasTagChars(s: string)
    requires IsTag(s)
    ensures TagChars(s)
  {
    MajorHasTagChars(s[1..]);
    forall i | 0 <= i < |s| ensures TagChar(s[i]) {
      assert i > 0 ==> s[i] == s[1..][i - 1];
    }
  }

  // ----- one heading row -----

  /** How many characters stand before the first `c`. */
  function Until(s: string, c: char): (n: nat)
    ensures n <= |s|
    ensures n < |s| ==> s[n] == c
  {
    if s == "" || s[0] == c then 0 else 1 + Until(s[1..], c)
  }

  lemma {:induction false} UntilFirst(s: string, c: char, tail: string)
    requires c !in s && (tail == "" || tail[0] == c)
    ensures Until(s + tail, c) == |s|
  {
    if s == "" {
      assert s + tail == tail;
    } else {
      UntilFirst(s[1..], c, tail);
      assert (s + tail)[1..] == s[1..] + tail;
    }
  }

  datatype Heading = Heading(tag: string, date: string)

  function Opening(): string {
    ['#', '#', ' ', '[']
  }

  function Dash(): string {
    [']', ' ', '-', ' ']
  }

  /** The heading as `upsert_release` writes it. */
  function Spell(h: Heading): string {
    Opening() + h.tag + Dash() + h.date
  }

  /** `VERSION_HEADING_RE` on one row. */
  function ReadHeading(row: string): Option<Heading> {
    if !(Opening() <= row) then None
    else
      var tag := row[4..][..Until(row[4..], ']')];
      var rest := row[4 + |tag|..];
      if !IsTag(tag) || !(Dash() <= rest) || |rest| < 14 then None
      else if !DateShape(rest[4..14]) then None
      else if exists i :: 14 <= i < |rest| && rest[i] !in {' ', '\t'} then None
      else Some(Heading(tag, rest[4..14]))
  }

  lemma ReadSpelt(h: Heading)
    requires IsTag(h.tag) && DateShape(h.date)
    ensures ReadHeading(Spell(h)) == Some(h)
  {
    var row := Spell(h);
    assert Opening() <= row;
    assert row[4..] == h.tag + (Dash() + h.date);
    TagHasTagChars(h.tag);
    UntilFirst(h.tag, ']', Dash() + h.date);
    assert row[4..][..|h.tag|] == h.tag;
    var rest := row[4 + |h.tag|..];
    assert rest == Dash() + h.date;
    assert rest[4..14] == h.date;
  }

  ghost predicate Unbroken(s: string) {
    forall i :: 0 <= i < |s| ==> !IsBreak(s[i])
  }

  lemma UnbrokenParts(h: Heading)
    requires TagChars(h.tag) && DateShape(h.date)
    ensures Unbroken(Opening()) && Unbroken(h.tag) && Unbroken(Dash()) && Unbroken(h.date)
  {
    forall i | 0 <= i < |h.tag| ensures !IsBreak(h.tag[i]) {
      assert TagChar(h.tag[i]);
    }
    forall i | 0 <= i < 10 ensures !IsBreak(h.date[i]) {
      assert Digit(h.date[i]) || h.date[i] == '-';
    }
  }

  lemma UnbrokenConcat(a: string, b: string)
    requires Unbroken(a) && Unbroken(b)
    ensures Unbroken(a + b)
  {
  }

  /** A heading row begins with two hashes and a space, and holds no line break. */
  lemma SpeltRow(h: Heading)
    requires IsTag(h.tag) && DateShape(h.date)
    ensures Unbroken(Spell(h)) && EndsDark(Spell(h)) && Level(Spell(h)) == 2
    ensures |Spell(h)| > 3 && Spell(h)[0] == '#'
  {
    TagHasTagChars(h.tag);
    UnbrokenParts(h);
    UnbrokenConcat(Opening(), h.tag);
    UnbrokenConcat(Opening() + h.tag, Dash());
    UnbrokenConcat(Opening() + h.tag + Dash(), h.date);
    var row := Spell(h);
    assert row[|row| - 1] == h.date[9];
    assert Digit(h.date[9]);
    assert row[0] == '#' && row[1] == '#' && row[2] == ' ';
    assert Run(row[2..], '#') == 0;
    assert row[1..][1..] == row[2..];
    assert Run(row, '#') == 1 + Run(row[1..], '#') == 2 + Run(row[1..][1..], '#');
  }

  lemma ReadStart(row: string)
    requires ReadHeading(row).Some?
    ensures |row| > 3 && row[0] == '#' && row[1] == '#' && row[2] == ' '
  {
    assert row[..4] == Opening();
    assert row[0] == row[..4][0] && row[1] == row[..4][1] && row[2] == row[..4][2];
  }

  ghost predicate Trailing(s: string) {
    forall i :: 0 <= i < |s| ==> s[i] in {' ', '\t'}
  }

  lemma SpeltReads(h: Heading, tail: string)
    requires IsTag(h.tag) && DateShape(h.date) && Trailing(tail)
    ensures ReadHeading(Spell(h) + tail) == Some(h)
  {
    hide IsTag, DateShape, Until;
    var row := Spell(h) + tail;
    assert row[..4] == Opening();
    assert row[4..] == h.tag + (Dash() + h.date + tail);
    TagHasTagChars(h.tag);
    NoBracketInTag(h.tag);
    UntilFirst(h.tag, ']', Dash() + h.date + tail);
    assert row[4..][..|h.tag|] == h.tag;
    var rest := row[4 + |h.tag|..];
    DateIsTen(h.date);
    assert rest == Dash() + h.date + tail;
    assert rest[..4] == Dash() && rest[4..14] == h.date;
    forall i | 14 <= i < |rest| ensures rest[i] in {' ', '\t'} {
      assert rest[i] == tail[i - 14];
    }
  }

  lemma NoBracketInTag(tag: string)
    requires TagChars(tag)
    ensures ']' !in tag
  {
  }

  lemma DateIsTen(date: string)
    requires DateShape(date)
    ensures |date| == 10
  {
  }

  /** A row reads as a version heading exactly when it is spelt as one, with spaces and tabs at its end. */
  lemma ReadsIff(row: string, h: Heading)
    ensures ReadHeading(row) == Some(h) <==>
            && IsTag(h.tag) && DateShape(h.date)
            && |Spell(h)| <= |row| && row[..|Spell(h)|] == Spell(h) && Trailing(row[|Spell(h)|..])
  {
    hide IsTag, DateShape, Until;
    if ReadHeading(row) == Some(h) {
      ReadIsSpelt(row, h);
    }
    if IsTag(h.tag) && DateShape(h.date) && |Spell(h)| <= |row| && row[..|Spell(h)|] == Spell(h)
       && Trailing(row[|Spell(h)|..]) {
      assert row == Spell(h) + row[|Spell(h)|..];
      SpeltReads(h, row[|Spell(h)|..]);
    }
  }

  lemma ReadIsSpelt(row: string, h: Heading)
    requires ReadHeading(row) == Some(h)
    ensures IsTag(h.tag) && DateShape(h.date)
    ensures |Spell(h)| <= |row| && row[..|Spell(h)|] == Spell(h) && Trailing(row[|Spell(h)|..])
  {
    hide IsTag, DateShape, Until;
    var rest := row[4 + |h.tag|..];
    DateIsTen(h.date);
    var n := |h.tag| + 18;
    assert |Spell(h)| == n && row[n..] == rest[14..];
    assert row[..n] == row[..4] + row[4..][..|h.tag|] + rest[..4] + rest[4..14];
    forall i | 0 <= i < |row[n..]| ensures row[n..][i] in {' ', '\t'} {
      assert row[n..][i] == rest[i + 14];
    }
  }

  // ----- all heading rows -----

  /** The first row of a text, without its newline. */
  function Row(m: string): string {
    m[..Until(m, '\n')]
  }

  /** The text below the first row. */
  function Below(m: string): (rest: string)
    ensures m != "" ==> |rest| < |m|
  {
    if Until(m, '\n') == |m| then "" else m[Until(m, '\n') + 1..]
  }

  /** The rows of a text: what newlines, and only newlines, part. */
  function Rows(m: string): seq<string>
    decreases |m|
  {
    if m == "" then [] else [Row(m)] + Rows(Below(m))
  }

  /** One match: where its row starts and ends, and what it says. */
  datatype Match = Match(start: nat, end: nat, heading: Heading)

  function RowMatch(row: string, at: nat): seq<Match> {
    match ReadHeading(row)
    case None => []
    case Some(h) => [Match(at, at + |row|, h)]
  }

  /** What `read` finds in the rows of a text that stands at offset `at`. */
  function Scan<T>(read: (string, nat) -> seq<T>, rows: seq<string>, at: nat): seq<T> {
    if rows == [] then [] else read(rows[0], at) + Scan(read, rows[1..], at + |rows[0]| + 1)
  }

  /** `finditer` */
  function Versions(m: string, at: nat): seq<Match> {
    Scan(RowMatch, Rows(m), at)
  }

  function MatchesOf(text: string): seq<Match> {
    Versions(Mask(text), 0)
  }

  lemma {:induction false} UntilStays(a: string, b: string, c: char)
    requires c in a
    ensures Until(a + b, c) == Until(a, c) < |a|
  {
    if a[0] != c {
      UntilStays(a[1..], b, c);
      assert (a + b)[1..] == a[1..] + b;
    }
  }

  lemma RowConcat(a: string, b: string)
    requires '\n' in a
    ensures Row(a + b) == Row(a)
  {
    hide Until;
    UntilStays(a, b, '\n');
    PrefixSlices(a, b, Until(a, '\n'));
  }

  lemma BelowConcat(a: string, b: string)
    requires '\n' in a
    ensures Below(a + b) == Below(a) + b
  {
    hide Until;
    UntilStays(a, b, '\n');
    PrefixSlices(a, b, Until(a, '\n') + 1);
  }

  lemma BelowEndsLine(a: string)
    requires EndsLine(a) && a != ""
    ensures '\n' in a && EndsLine(Below(a)) && |a| == |Row(a)| + 1 + |Below(a)|
  {
    assert a[|a| - 1] == '\n';
    UntilStays(a, "", '\n');
    assert a + "" == a;
  }

  lemma {:induction false} RowsConcat(a: string, b: string)
    requires EndsLine(a)
    ensures Rows(a + b) == Rows(a) + Rows(b)
    decreases |a|
  {
    if a == "" {
      assert a + b == b;
    } else {
      BelowEndsLine(a);
      RowConcat(a, b);
      BelowConcat(a, b);
      RowsConcat(Below(a), b);
      ConsConcat(Row(a), Rows(Below(a)), Rows(b));
    }
  }

  lemma LastRow(m: string)
    requires '\n' !in m
    ensures Row(m) == m && Row(m + "\n") == m && Below(m) == "" && Below(m + "\n") == ""
  {
    UntilFirst(m, '\n', "");
    assert m + "" == m;
    UntilFirst(m, '\n', "\n");
    PrefixSlices(m, "\n", |m|);
  }

  /** A newline behind a text ends its last row, or adds an empty one. */
  lemma {:induction false} RowsNewline(m: string)
    ensures Rows(m + "\n") == Rows(m) || Rows(m + "\n") == Rows(m) + [""]
    decreases |m|
  {
    if '\n' in m {
      RowConcat(m, "\n");
      BelowConcat(m, "\n");
      RowsNewline(Below(m));
      ConsConcat(Row(m), Rows(Below(m)), [""]);
    } else {
      LastRow(m);
    }
  }

  function Width(rows: seq<string>): nat {
    if rows == [] then 0 else |rows[0]| + 1 + Width(rows[1..])
  }

  lemma {:induction false} RowsWidth(a: string)
    ensures EndsLine(a) ==> Width(Rows(a)) == |a|
    ensures |a| <= Width(Rows(a)) <= |a| + 1
    decreases |a|
  {
    if a != "" {
      if '\n' in a {
        UntilStays(a, "", '\n');
        assert a + "" == a;
      } else {
        LastRow(a);
      }
      RowsWidth(Below(a));
    }
  }

  lemma {:induction false} ScanConcat<T>(read: (string, nat) -> seq<T>, a: seq<string>, b: seq<string>, at: nat)
    ensures Scan(read, a + b, at) == Scan(read, a, at) + Scan(read, b, at + Width(a))
    decreases |a|
  {
    if a == [] {
      assert a + b == b;
    } else {
      var next := at + |a[0]| + 1;
      ScanConcat(read, a[1..], b, next);
      assert (a + b)[1..] == a[1..] + b;
      Associate(read(a[0], at), Scan(read, a[1..], next), Scan(read, b, at + Width(a)));
    }
  }

  lemma RowsParts(a: string, b: string)
    requires EndsLine(a)
    ensures Rows(a + b) == Rows(a) + Rows(b) && Width(Rows(a)) == |a|
  {
    RowsConcat(a, b);
    RowsWidth(a);
  }

  lemma ScanParts<T>(read: (string, nat) -> seq<T>, all: seq<string>, a: seq<string>, b: seq<string>, at: nat, w: nat)
    requires all == a + b && Width(a) == w
    ensures Scan(read, all, at) == Scan(read, a, at) + Scan(read, b, at + w)
  {
    ScanConcat(read, a, b, at);
  }

  lemma ScanText<T>(read: (string, nat) -> seq<T>, a: string, b: string, at: nat)
    requires EndsLine(a)
    ensures Scan(read, Rows(a + b), at) == Scan(read, Rows(a), at) + Scan(read, Rows(b), at + |a|)
  {
    hide *;
    RowsParts(a, b);
    ScanParts(read, Rows(a + b), Rows(a), Rows(b), at, |a|);
  }

  lemma VersionsConcat(a: string, b: string, at: nat)
    requires EndsLine(a)
    ensures Versions(a + b, at) == Versions(a, at) + Versions(b, at + |a|)
  {
    ScanText(RowMatch, a, b, at);
  }

  lemma ScanEmptyRow<T>(read: (string, nat) -> seq<T>, at: nat)
    requires read("", at) == []
    ensures Scan(read, [""], at) == []
  {
  }

  lemma ScanSame<T>(read: (string, nat) -> seq<T>, longer: seq<string>, rows: seq<string>, at: nat)
    requires longer == rows || longer == rows + [""]
    requires read("", at + Width(rows)) == []
    ensures Scan(read, longer, at) == Scan(read, rows, at)
  {
    hide Scan, Width;
    if longer != rows {
      ScanConcat(read, rows, [""], at);
      ScanEmptyRow(read, at + Width(rows));
    }
  }

  lemma ScanNewline<T>(read: (string, nat) -> seq<T>, m: string, at: nat)
    requires read("", at + Width(Rows(m))) == []
    ensures Scan(read, Rows(m + "\n"), at) == Scan(read, Rows(m), at)
  {
    hide Rows, Scan;
    RowsNewline(m);
    ScanSame(read, Rows(m + "\n"), Rows(m), at);
  }

  lemma EmptyRow(at: nat)
    ensures RowMatch("", at) == []
  {
  }

  lemma VersionsNewline(m: string, at: nat)
    ensures Versions(m + "\n", at) == Versions(m, at)
  {
    EmptyRow(at + Width(Rows(m)));
    ScanNewline(RowMatch, m, at);
  }

  function Moved(ms: seq<Match>, offset: nat): seq<Match> {
    seq(|ms|, i requires 0 <= i < |ms| => Match(ms[i].start + offset, ms[i].end + offset, ms[i].heading))
  }

  lemma MovedConcat(a: seq<Match>, b: seq<Match>, offset: nat)
    ensures Moved(a + b, offset) == Moved(a, offset) + Moved(b, offset)
  {
  }

  /** A reader that moves its matches with the row it reads. */
  ghost predicate MovesAlong(read: (string, nat) -> seq<Match>, offset: nat) {
    forall row: string, at: nat :: read(row, at + offset) == Moved(read(row, at), offset)
  }

  lemma {:induction false} ScanMoves(read: (string, nat) -> seq<Match>, rows: seq<string>, at: nat, offset: nat)
    requires MovesAlong(read, offset)
    ensures Scan(read, rows, at + offset) == Moved(Scan(read, rows, at), offset)
    decreases |rows|
  {
    if rows != [] {
      var next := at + |rows[0]| + 1;
      ScanMoves(read, rows[1..], next, offset);
      MovedConcat(read(rows[0], at), Scan(read, rows[1..], next), offset);
    }
  }

  lemma RowMovesAlong(row: string, at: nat, offset: nat)
    ensures RowMatch(row, at + offset) == Moved(RowMatch(row, at), offset)
  {
  }

  lemma RowsMoveAlong(offset: nat)
    ensures MovesAlong(RowMatch, offset)
  {
    forall row: string, at: nat ensures RowMatch(row, at + offset) == Moved(RowMatch(row, at), offset) {
      RowMovesAlong(row, at, offset);
    }
  }

  lemma VersionsMove(m: string, offset: nat)
    ensures Versions(m, offset) == Moved(Versions(m, 0), offset)
  {
    RowsMoveAlong(offset);
    ScanMoves(RowMatch, Rows(m), 0, offset);
  }

  /** Matches lie in order, one after the other, within the text. */
  ghost predicate InOrder(ms: seq<Match>, from: nat, to: nat) {
    && (forall i :: 0 <= i < |ms| ==> from <= ms[i].start < ms[i].end <= to)
    && (forall i, j :: 0 <= i < j < |ms| ==> ms[i].end < ms[j].start)
  }

  lemma InOrderConcat(a: seq<Match>, b: seq<Match>, from: nat, mid: nat, to: nat)
    requires InOrder(a, from, mid) && InOrder(b, mid + 1, to) && from <= mid < to
    ensures InOrder(a + b, from, to)
  {
  }

  ghost predicate StaysInRow(read: (string, nat) -> seq<Match>) {
    forall row: string, at: nat :: InOrder(read(row, at), at, at + |row|)
  }

  lemma {:induction false} ScanInOrder(read: (string, nat) -> seq<Match>, rows: seq<string>, at: nat)
    requires StaysInRow(read)
    ensures InOrder(Scan(read, rows, at), at, at + Width(rows))
    ensures rows != [] ==> InOrder(Scan(read, rows, at), at, at + Width(rows) - 1)
    decreases |rows|
  {
    if rows != [] {
      var next := at + |rows[0]| + 1;
      ScanInOrder(read, rows[1..], next);
      if rows[1..] == [] {
        assert read(rows[0], at) + [] == read(rows[0], at);
      } else {
        InOrderConcat(read(rows[0], at), Scan(read, rows[1..], next), at, at + |rows[0]|, at + Width(rows) - 1);
      }
    }
  }

  lemma VersionsInOrder(m: string, at: nat)
    ensures InOrder(Versions(m, at), at, at + |m|)
  {
    forall row: string, at: nat ensures InOrder(RowMatch(row, at), at, at + |row|) {
      if ReadHeading(row).Some? {
        ReadStart(row);
      }
    }
    ScanInOrder(RowMatch, Rows(m), at);
    RowsWidth(m);
  }

  lemma OrderOf(c: string)
    ensures InOrder(MatchesOf(c), 0, |c|)
  {
    VersionsInOrder(Mask(c), 0);
    MaskKeepsOffsets(Outside, c, 0);
  }

  /** A match stands at the start of a row and begins with two hashes and a space. */
  ghost predicate AtRow(m: string, start: nat) {
    && start + 2 < |m| && (start == 0 || m[start - 1] == '\n')
    && m[start] == '#' && m[start + 1] == '#' && m[start + 2] == ' '
  }

  /** A reader that only matches rows that begin like a version heading. */
  ghost predicate ReadsHeadings(read: (string, nat) -> seq<Match>) {
    forall row: string, at: nat :: read(row, at) != [] ==>
      && |read(row, at)| == 1 && read(row, at)[0].start == at
      && |row| > 3 && row[0] == '#' && row[1] == '#' && row[2] == ' '
  }

  lemma ScanCons<T>(read: (string, nat) -> seq<T>, row: string, rows: seq<string>, at: nat)
    ensures Scan(read, [row] + rows, at) == read(row, at) + Scan(read, rows, at + |row| + 1)
  {
    assert ([row] + rows)[1..] == rows;
  }

  lemma ScanStep<T>(read: (string, nat) -> seq<T>, m: string, at: nat)
    requires m != ""
    ensures Scan(read, Rows(m), at) == read(Row(m), at) + Scan(read, Rows(Below(m)), at + |Row(m)| + 1)
  {
    ScanCons(read, Row(m), Rows(Below(m)), at);
  }

  ghost predicate Found(m: string, at: nat, x: Match) {
    at <= x.start && AtRow(m, x.start - at)
  }

  lemma FoundHere(m: string, at: nat, x: Match)
    requires |Row(m)| > 3 && Row(m)[0] == '#' && Row(m)[1] == '#' && Row(m)[2] == ' ' && x.start == at
    ensures Found(m, at, x)
  {
  }

  lemma FoundBelow(m: string, at: nat, x: Match)
    requires Found(Below(m), at + |Row(m)| + 1, x)
    ensures Found(m, at, x)
  {
    AtRowBelow(m, x.start - at - |Row(m)| - 1);
  }

  lemma {:induction false} ScanAtRow(read: (string, nat) -> seq<Match>, m: string, at: nat)
    requires ReadsHeadings(read)
    ensures forall x :: x in Scan(read, Rows(m), at) ==> Found(m, at, x)
    decreases |m|
  {
    if m != "" {
      ScanStep(read, m, at);
      var here, later := read(Row(m), at), Scan(read, Rows(Below(m)), at + |Row(m)| + 1);
      ScanAtRow(read, Below(m), at + |Row(m)| + 1);
      FoundIn(read, m, at, here, later);
    }
  }

  lemma FoundIn(read: (string, nat) -> seq<Match>, m: string, at: nat, here: seq<Match>, later: seq<Match>)
    requires ReadsHeadings(read) && here == read(Row(m), at)
    requires forall x :: x in later ==> Found(Below(m), at + |Row(m)| + 1, x)
    ensures forall x :: x in here + later ==> Found(m, at, x)
  {
    forall x | x in here + later ensures Found(m, at, x) {
      if x in here {
        FoundHere(m, at, x);
      } else {
        FoundBelow(m, at, x);
      }
    }
  }

  lemma RowReadsHeading(row: string, at: nat)
    requires RowMatch(row, at) != []
    ensures |RowMatch(row, at)| == 1 && RowMatch(row, at)[0].start == at
    ensures |row| > 3 && row[0] == '#' && row[1] == '#' && row[2] == ' '
  {
    ReadStart(row);
  }

  lemma RowsReadHeadings()
    ensures ReadsHeadings(RowMatch)
  {
    forall row: string, at: nat | RowMatch(row, at) != []
      ensures && |RowMatch(row, at)| == 1 && RowMatch(row, at)[0].start == at
              && |row| > 3 && row[0] == '#' && row[1] == '#' && row[2] == ' '
    {
      RowReadsHeading(row, at);
    }
  }

  /** From start to end there stands one row of the text. */
  ghost predicate RowSpan(m: string, start: int, end: int) {
    && 0 <= start <= end <= |m| && '\n' !in m[start..end]
    && (start == 0 || m[start - 1] == '\n') && (end == |m| || m[end] == '\n')
  }

  lemma FirstRowSpan(m: string, end: nat)
    requires m != ""
    ensures RowSpan(m, 0, end) <==> end == |Row(m)|
  {
    RowHasNone(m);
    if end < |Row(m)| && end <= |m| {
      assert m[end] == Row(m)[end];
    }
    if |Row(m)| < end <= |m| {
      assert m[0..end][|Row(m)|] == '\n';
    }
  }

  lemma {:induction false} RowHasNone(m: string)
    ensures '\n' !in Row(m)
  {
    if m != "" && m[0] != '\n' {
      RowHasNone(m[1..]);
      assert Row(m) == [m[0]] + Row(m[1..]);
    }
  }

  /** The rows behind the first one are those of the text below it. */
  lemma LaterRowSpan(m: string, start: int, end: int)
    requires m != "" && 0 < start < |m|
    ensures var k := |Row(m)| + 1; RowSpan(m, start, end) <==> RowSpan(Below(m), start - k, end - k)
  {
    hide Until;
    RowHasNone(m);
    var k := |Row(m)| + 1;
    assert start < k ==> m[start - 1] == Row(m)[start - 1];
    if k <= start <= end <= |m| {
      assert Until(m, '\n') < |m|;
      assert Below(m) == m[k..] && m[k - 1] == '\n';
      assert m[start..end] == Below(m)[start - k..end - k];
    }
  }

  lemma SlicesBelow(m: string, start: int, end: int)
    requires m != "" && |Row(m)| + 1 <= start <= end <= |m|
    ensures var k := |Row(m)| + 1; |Below(m)| == |m| - k && m[start..end] == Below(m)[start - k..end - k]
  {
    hide Until;
    var k := |Row(m)| + 1;
    assert Below(m) == m[k..];
    SliceBehind(m, k, start, end);
  }

  lemma SliceBehind(m: string, k: nat, start: nat, end: nat)
    requires k <= start <= end <= |m|
    ensures m[start..end] == m[k..][start - k..end - k]
  {
  }

  lemma EmptyReadsNone()
    ensures ReadHeading("").None?
  {
    if ReadHeading("").Some? {
      ReadStart("");
      assert false;
    }
  }

  /** `x` is read from a whole row of the text at offset `at`. */
  ghost predicate ReadFrom(m: string, at: nat, x: Match) {
    && RowSpan(m, x.start - at, x.end - at)
    && ReadHeading(m[x.start - at..x.end - at]) == Some(x.heading)
  }

  lemma ReadBelow(m: string, at: nat, x: Match)
    requires m != "" && x.start > at
    ensures ReadFrom(m, at, x) <==> ReadFrom(Below(m), at + |Row(m)| + 1, x)
  {
    hide ReadHeading, Until, RowSpan;
    var start, end, k := x.start - at, x.end - at, |Row(m)| + 1;
    if start < |m| {
      LaterRowSpan(m, start, end);
      SpanInside(m, start, end);
      SpanInside(Below(m), start - k, end - k);
      BelowIsShorter(m);
      if k <= start <= end <= |m| {
        SlicesBelow(m, start, end);
      }
    } else {
      NoRowAtEnd(m, start, end);
      BelowIsShorter(m);
      NoRowAtEnd(Below(m), start - k, end - k);
    }
  }

  lemma SpanInside(m: string, start: int, end: int)
    ensures RowSpan(m, start, end) ==> 0 <= start <= end <= |m|
  {
  }

  lemma BelowIsShorter(m: string)
    requires m != ""
    ensures |Below(m)| <= |m| - |Row(m)| && |Row(m)| <= |m|
    ensures Below(m) != "" ==> |Below(m)| + |Row(m)| + 1 == |m|
  {
  }

  lemma NoRowAtEnd(m: string, start: int, end: int)
    requires start >= |m| || start < 0
    ensures RowSpan(m, start, end) ==> ReadHeading(m[start..end]).None?
  {
    EmptyReadsNone();
    if RowSpan(m, start, end) {
      assert m[start..end] == "";
    }
  }

  lemma FrontRow(m: string)
    ensures |Row(m)| <= |m| && m[0..|Row(m)|] == Row(m)
  {
  }

  lemma ReadFirst(m: string, at: nat, x: Match)
    requires m != "" && x.start == at
    ensures ReadFrom(m, at, x) <==> x in RowMatch(Row(m), at)
  {
    hide ReadHeading, Row, Until, RowSpan;
    SpanInside(m, x.start - at, x.end - at);
    BelowIsShorter(m);
    FrontRow(m);
    if x.end >= at {
      FirstRowSpan(m, x.end - at);
    }
  }

  /** The matches are the rows that read as a version heading, all of them and no others. */
  lemma {:induction false} VersionsIff(m: string, at: nat, x: Match)
    ensures x in Versions(m, at) <==> ReadFrom(m, at, x)
    decreases |m|
  {
    hide ReadFrom, Row, Below;
    if m == "" {
      NoVersionInNothing(at, x);
    } else {
      var next := at + |Row(m)| + 1;
      VersionsIff(Below(m), next, x);
      assert Versions(m, at) == RowMatch(Row(m), at) + Versions(Below(m), next);
      FromStart(Below(m), next, x);
      FromStart(m, at, x);
      if x.start == at {
        ReadFirst(m, at, x);
      } else if x.start > at {
        ReadBelow(m, at, x);
      }
    }
  }

  lemma NoVersionInNothing(at: nat, x: Match)
    ensures !ReadFrom("", at, x)
  {
    NoRowAtEnd("", x.start - at, x.end - at);
  }

  lemma FromStart(m: string, at: nat, x: Match)
    ensures ReadFrom(m, at, x) ==> at <= x.start
  {
  }

  lemma MatchAtRow(m: string, i: nat)
    requires i < |Versions(m, 0)|
    ensures AtRow(m, Versions(m, 0)[i].start)
  {
    RowsReadHeadings();
    ScanAtRow(RowMatch, m, 0);
    assert Found(m, 0, Versions(m, 0)[i]);
  }

  lemma AtRowBelow(m: string, start: nat)
    requires AtRow(Below(m), start)
    ensures AtRow(m, |Row(m)| + 1 + start)
  {
    var k := |Row(m)| + 1;
    assert Below(m) == m[k..] && m[k - 1] == '\n';
  }

  /** A newline of the mask is a newline of the text. */
  lemma MaskedRowStart(c: string, p: nat)
    requires 0 < p <= |c| && p <= |Mask(c)| && Mask(c)[p - 1] == '\n'
    ensures EndsLine(c[..p])
  {
    MaskKeepsOffsets(Outside, c, p - 1);
  }

  /** A mask that starts with a visible character starts outside every fence. */
  lemma VisibleStart(f: Fence, t: string)
    requires t != "" && |MaskFrom(f, t)| > 0 && MaskFrom(f, t)[0] == '#'
    ensures f == Outside
  {
    MaskKeepsOffsets(f, t, 0);
  }

  /** A version heading is never inside a fence and always starts a line. */
  lemma MatchIsOutside(c: string, i: nat)
    requires i < |MatchesOf(c)|
    ensures var p := MatchesOf(c)[i].start;
            p < |c| && EndsLine(c[..p]) && AfterText(Outside, c[..p]) == Outside
  {
    MatchAtRow(Mask(c), i);
    AtRowIsOutside(c, MatchesOf(c)[i].start);
  }

  lemma AtRowIsOutside(c: string, p: nat)
    requires AtRow(Mask(c), p)
    ensures p < |c| && EndsLine(c[..p]) && AfterText(Outside, c[..p]) == Outside
  {
    MaskKeepsOffsets(Outside, c, 0);
    if p > 0 {
      MaskedRowStart(c, p);
    }
    var top, t := c[..p], c[p..];
    assert c == top + t;
    MaskConcat(Outside, top, t);
    MaskKeepsOffsets(Outside, top, 0);
    MaskKeepsOffsets(AfterText(Outside, top), t, 0);
    assert Mask(c)[p] == MaskFrom(AfterText(Outside, top), t)[0];
    VisibleStart(AfterText(Outside, top), t);
  }

  // ----- entries -----

  /** An entry as a reader of the changelog sees it. */
  datatype Entry = Entry(tag: string, date: string, body: string)

  function EndOf(c: string, ms: seq<Match>, i: nat): nat
    requires i < |ms|
  {
    if i + 1 < |ms| then ms[i + 1].start else |c|
  }

  function EntryAt(c: string, ms: seq<Match>, i: nat): Entry
    requires i < |ms| && ms[i].end <= EndOf(c, ms, i) <= |c|
  {
    Entry(ms[i].heading.tag, ms[i].heading.date, Strip(c[ms[i].end..EndOf(c, ms, i)]))
  }

  function Entries(c: string, ms: seq<Match>): seq<Entry>
    requires InOrder(ms, 0, |c|)
  {
    seq(|ms|, i requires 0 <= i < |ms| => EntryAt(c, ms, i))
  }

  function EntriesOf(c: string): seq<Entry> {
    OrderOf(c);
    MaskKeepsOffsets(Outside, c, 0);
    Entries(c, MatchesOf(c))
  }

  /** Nothing, or a text that starts with a version heading. */
  ghost predicate Opens(n: string) {
    n == "" || (MatchesOf(n) != [] && MatchesOf(n)[0].start == 0)
  }

  lemma SlicesOf(p: string, n: string, from: nat, to: nat)
    requires from <= to <= |p| + |n|
    ensures to <= |p| ==> (p + n)[from..to] == p[from..to]
    ensures from >= |p| ==> (p + n)[from..to] == n[from - |p|..to - |p|]
    ensures from <= |p| && to == |p| + |n| ==> (p + n)[from..to] == p[from..] + n
  {
  }

  lemma MaskEndsLine(p: string)
    requires EndsLine(p)
    ensures EndsLine(Mask(p)) && |Mask(p)| == |p|
  {
    MaskKeepsOffsets(Outside, p, 0);
    if p != "" {
      MaskKeepsOffsets(Outside, p, |p| - 1);
    }
  }

  /** The matches of a text and of what is put behind it. */
  lemma MatchesConcat(p: string, n: string)
    requires EndsLine(p) && AfterText(Outside, p) == Outside
    ensures MatchesOf(p + n) == MatchesOf(p) + Moved(MatchesOf(n), |p|)
  {
    hide Scan, Rows, MaskFrom, AfterText, Moved;
    MaskConcat(Outside, p, n);
    MaskEndsLine(p);
    VersionsConcat(Mask(p), Mask(n), 0);
    VersionsMove(Mask(n), |p|);
  }

  lemma EntriesJoin(p: string, n: string, a: seq<Match>, b: seq<Match>)
    requires InOrder(a, 0, |p|) && InOrder(b, 0, |n|) && InOrder(a + Moved(b, |p|), 0, |p + n|)
    requires n != "" ==> b != [] && b[0].start == 0
    ensures Entries(p + n, a + Moved(b, |p|)) == Entries(p, a) + Entries(n, b)
  {
    forall i | 0 <= i < |a| + |b|
      ensures Entries(p + n, a + Moved(b, |p|))[i] == (Entries(p, a) + Entries(n, b))[i]
    {
      EntryOfConcat(p, n, a, b, i);
    }
  }

  /** Entries are read piece by piece wherever a new entry opens. */
  lemma EntriesConcat(p: string, n: string)
    requires EndsLine(p) && AfterText(Outside, p) == Outside && Opens(n)
    ensures EntriesOf(p + n) == EntriesOf(p) + EntriesOf(n)
  {
    MatchesConcat(p, n);
    OrderOf(p);
    OrderOf(n);
    OrderOf(p + n);
    EntriesJoin(p, n, MatchesOf(p), MatchesOf(n));
  }

  lemma EntryOfConcat(p: string, n: string, a: seq<Match>, b: seq<Match>, i: nat)
    requires InOrder(a, 0, |p|) && InOrder(b, 0, |n|) && i < |a| + |b|
    requires n != "" ==> b != [] && b[0].start == 0
    ensures var ms := a + Moved(b, |p|);
            && ms[i].end <= EndOf(p + n, ms, i) <= |p + n|
            && EntryAt(p + n, ms, i) == if i < |a| then EntryAt(p, a, i) else EntryAt(n, b, i - |a|)
  {
    var ms := a + Moved(b, |p|);
    if i < |a| {
      assert EndOf(p + n, ms, i) == EndOf(p, a, i);
    }
    SlicesOf(p, n, ms[i].end, EndOf(p + n, ms, i));
  }

  /** Trailing newlines belong to no entry. */
  lemma {:induction false} EntriesNewlines(p: string, w: string)
    requires Newlines(w)
    ensures AfterText(Outside, p + w) == AfterText(Outside, p)
    ensures MatchesOf(p + w) == MatchesOf(p)
    ensures EntriesOf(p + w) == EntriesOf(p)
  {
    hide MatchesOf, EntriesOf, AfterText;
    if w == "" {
      assert p + w == p;
    } else {
      var k := |w| - 1;
      EntriesNewlines(p, w[..k]);
      EntriesNewline(p + w[..k]);
      assert p + w[..k] + "\n" == p + w;
    }
  }

  lemma EntriesSpaced(p: string, ms: seq<Match>)
    requires InOrder(ms, 0, |p|)
    ensures Entries(p + "\n", ms) == Entries(p, ms)
  {
    forall i | 0 <= i < |ms| ensures EntryAt(p + "\n", ms, i) == EntryAt(p, ms, i) {
      if i + 1 < |ms| {
        SlicesOf(p, "\n", ms[i].end, EndOf(p, ms, i));
      } else {
        SlicesOf(p, "\n", ms[i].end, |p| + 1);
        StripBefore(p[ms[i].end..], "\n");
        assert p[ms[i].end..] == p[ms[i].end..|p|];
      }
    }
  }

  lemma EntriesNewline(p: string)
    ensures AfterText(Outside, p + "\n") == AfterText(Outside, p)
    ensures MatchesOf(p + "\n") == MatchesOf(p)
    ensures EntriesOf(p + "\n") == EntriesOf(p)
  {
    var y := BlankMask(Outside, p, '\n');
    VersionsNewline(Mask(p), 0);
    OrderOf(p);
    EntriesSpaced(p, MatchesOf(p));
  }

  /** The `i`-th heading parts the text: `i` entries above, the others from it on. */
  lemma SplitAtMatch(c: string, i: nat)
    requires i < |MatchesOf(c)|
    ensures var p := MatchesOf(c)[i].start;
            && p < |c|
            && EndsLine(c[..p]) && AfterText(Outside, c[..p]) == Outside
            && Opens(c[p..]) && |MatchesOf(c[..p])| == i
            && EntriesOf(c[..p]) == EntriesOf(c)[..i]
            && EntriesOf(c[p..]) == EntriesOf(c)[i..]
  {
    hide MaskFrom, AfterText, Scan, Rows;
    var p := MatchesOf(c)[i].start;
    MatchIsOutside(c, i);
    var top, rest := c[..p], c[p..];
    assert c == top + rest;
    MatchesConcat(top, rest);
    OrderOf(c);
    OrderOf(top);
    OrderOf(rest);
    MaskKeepsOffsets(Outside, top, 0);
    PartAt(MatchesOf(top), MatchesOf(rest), p, i);
    EntriesConcat(top, rest);
  }

  lemma PartAt(a: seq<Match>, b: seq<Match>, p: nat, i: nat)
    requires InOrder(a, 0, p) && i < |a| + |b|
    requires var ms := a + Moved(b, p);
             ms[i].start == p && forall j, k :: 0 <= j < k < |ms| ==> ms[j].end < ms[k].start
    requires forall j :: 0 <= j < |b| ==> b[j].start < b[j].end
    ensures i == |a| && b != [] && b[0].start == 0
  {
    var ms := a + Moved(b, p);
    assert forall j :: 0 <= j < |a| ==> ms[j] == a[j];
    assert |a| < |ms| ==> ms[|a|] == Moved(b, p)[0];
  }
}
