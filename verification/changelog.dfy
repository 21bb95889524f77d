/**
 `upsert_release` and `extract_release_notes` of `changelog.py`: what an
 upsert puts into the changelog, an extract reads back, and nothing else
 in the changelog changes.
 */
module Changelog {
  import opened Basics
  import opened PyText
  import opened ChangelogHeadings
  import opened ChangelogVersions

  datatype Error =
    | InvalidTag | InvalidDate
    | EmptyNotes | NoChineseSection | NoEnglishSection | NoMirrorLine
    | MarkerMissing | MarkerRepeated
    | Duplicates(tags: set<string>)
    | EmptyEntry | NoEntry

  /** The searches of `validate_release_notes`. */
  datatype Rules = Rules(chinese: string -> bool, english: string -> bool, mirror: string -> bool)

  const MARKER := "<!-- NAVOP_RELEASES -->"

  // ----- checks -----

  function NormalizeTag(value: string): Option<string> {
    var tag := Strip(value);
    var full := if tag != "" && tag[0] == 'v' then tag else "v" + tag;
    if IsTag(full) then Some(full) else None
  }

  function ValidateNotes(rules: Rules, notes: string, requireMirror: bool): Option<Error> {
    if Strip(notes) == "" then Some(EmptyNotes)
    else if !rules.chinese(notes) then Some(NoChineseSection)
    else if !rules.english(notes) then Some(NoEnglishSection)
    else if requireMirror && !rules.mirror(notes) then Some(NoMirrorLine)
    else None
  }

  function Repeated(hs: seq<Heading>): set<string> {
    set i, j | 0 <= i < j < |hs| && hs[i].tag == hs[j].tag :: hs[i].tag
  }

  /** The complaints of `version_matches`. */
  function Check(hs: seq<Heading>): Option<Error> {
    if Repeated(hs) != {} then Some(Duplicates(Repeated(hs)))
    else if exists i :: 0 <= i < |hs| && !IsoDate(hs[i].date) then Some(InvalidDate)
    else None
  }

  function HeadingsOf(ms: seq<Match>): seq<Heading> {
    seq(|ms|, i requires 0 <= i < |ms| => ms[i].heading)
  }

  /** Where the first heading of a tag is. */
  function FindTag(hs: seq<Heading>, tag: string): (found: Option<nat>)
    ensures found.Some? ==> found.value < |hs| && hs[found.value].tag == tag
    ensures found.None? ==> forall i :: 0 <= i < |hs| ==> hs[i].tag != tag
  {
    if hs == [] then None
    else if hs[0].tag == tag then Some(0)
    else
      match FindTag(hs[1..], tag)
      case None => assert forall i :: 1 <= i < |hs| ==> hs[i] == hs[1..][i - 1]; None
      case Some(i) => Some(i + 1)
  }

  /** `str.count` */
  function CountOf(s: string, part: string): nat
    requires part != ""
  {
    if |s| < |part| then 0
    else if s[..|part|] == part then 1 + CountOf(s[|part|..], part)
    else CountOf(s[1..], part)
  }

  lemma LaterSlice(s: string, from: nat, to: nat)
    requires s != "" && from <= to <= |s| - 1
    ensures s[1..][from..to] == s[from + 1..to + 1]
  {
  }

  /** `str.index`, one past the end of the occurrence. */
  function EndOfFirst(s: string, part: string): (end: nat)
    requires part != "" && CountOf(s, part) > 0
    ensures |part| <= end <= |s| && s[end - |part|..end] == part
  {
    if s[..|part|] == part then |part|
    else
      var end := EndOfFirst(s[1..], part);
      LaterSlice(s, end - |part|, end);
      end + 1
  }

  // ----- extract -----

  /** The release notes in the body of an entry. */
  function NotesOf(rules: Rules, body: string): Result<string, Error> {
    if body == "" then Err(EmptyEntry)
    else
      var notes := Strip(Transform(body, -1)) + "\n";
      match ValidateNotes(rules, notes, false)
      case Some(e) => Err(e)
      case None => Ok(notes)
  }

  /** The notes of the entry a tag is found at. */
  function ExtractEntry(rules: Rules, c: string, full: string): Result<string, Error> {
    var ms := MatchesOf(c);
    match FindTag(HeadingsOf(ms), full)
    case None => Err(NoEntry)
    case Some(i) =>
      OrderOf(c);
      NotesOf(rules, Strip(c[ms[i].end..EndOf(c, ms, i)]))
  }

  function ExtractReleaseNotes(rules: Rules, c: string, tag: string): Result<string, Error> {
    match NormalizeTag(tag)
    case None => Err(InvalidTag)
    case Some(full) =>
      match Check(HeadingsOf(MatchesOf(c)))
      case Some(e) => Err(e)
      case None => ExtractEntry(rules, c, full)
  }

  // ----- upsert -----

  function EntryText(h: Heading, notes: string): string {
    Spell(h) + "\n\n" + Strip(Transform(notes, 1)) + "\n"
  }

  /** An entry between what stands above and below it. */
  function Place(above: string, entry: string, below: string): string {
    var result := RStrip(above) + "\n\n" + entry;
    var suffix := LStripNewlines(below);
    RStrip(if suffix == "" then result else result + "\n" + suffix) + "\n"
  }

  /** Why an upsert is refused, in the order of the source. */
  function Refusal(rules: Rules, c: string, tag: string, date: string, notes: string): Option<Error> {
    if NormalizeTag(tag).None? then Some(InvalidTag)
    else if !IsoDate(date) then Some(InvalidDate)
    else if ValidateNotes(rules, Strip(notes) + "\n", true).Some? then ValidateNotes(rules, Strip(notes) + "\n", true)
    else if CountOf(c, MARKER) == 0 then Some(MarkerMissing)
    else if CountOf(c, MARKER) != 1 then Some(MarkerRepeated)
    else Check(HeadingsOf(MatchesOf(c)))
  }

  /** The entry in the place of the one of its tag, or below the marker. */
  function PutEntry(c: string, full: string, entry: string): string
    requires CountOf(c, MARKER) > 0
  {
    var ms := MatchesOf(c);
    match FindTag(HeadingsOf(ms), full)
    case Some(i) =>
      OrderOf(c);
      Place(c[..ms[i].start], entry, c[EndOf(c, ms, i)..])
    case None =>
      var end := EndOfFirst(c, MARKER);
      Place(c[..end], entry, c[end..])
  }

  function UpsertRelease(rules: Rules, c: string, tag: string, date: string, notes: string): Result<string, Error> {
    match Refusal(rules, c, tag, date, notes)
    case Some(e) => Err(e)
    case None =>
      var full := NormalizeTag(tag).value;
      Ok(PutEntry(c, full, EntryText(Heading(full, date), Strip(notes) + "\n")))
  }

  // ----- what is accepted -----

  /** Notes that say something in both languages, and where to download from if that is asked for. */
  predicate GoodNotes(rules: Rules, notes: string, requireMirror: bool) {
    && !Blank(notes) && rules.chinese(notes) && rules.english(notes)
    && (requireMirror ==> rules.mirror(notes))
  }

  /** Every version has its own tag and a date of the calendar. */
  predicate GoodVersions(hs: seq<Heading>) {
    && (forall i, j :: 0 <= i < j < |hs| ==> hs[i].tag != hs[j].tag)
    && (forall i :: 0 <= i < |hs| ==> IsoDate(hs[i].date))
  }

  lemma VersionsAreGood(hs: seq<Heading>)
    ensures Check(hs).None? <==> GoodVersions(hs)
  {
    if i, j :| 0 <= i < j < |hs| && hs[i].tag == hs[j].tag {
      assert hs[i].tag in Repeated(hs);
    }
  }

  lemma NotesAreGood(rules: Rules, notes: string, requireMirror: bool)
    ensures ValidateNotes(rules, notes, requireMirror).None? <==> GoodNotes(rules, notes, requireMirror)
    ensures ValidateNotes(rules, notes, requireMirror) == Some(EmptyNotes) <==> Blank(notes)
    ensures ValidateNotes(rules, notes, requireMirror) == Some(NoMirrorLine) <==>
            GoodNotes(rules, notes, false) && requireMirror && !rules.mirror(notes)
  {
    BlankIff(notes);
  }

  lemma BlankIff(s: string)
    ensures Strip(s) == "" <==> Blank(s)
  {
    if Blank(s) {
      AllBlank(s);
    }
    var lead := LStripSplits(s);
    var trail := RStripSplits(LStrip(s));
    if Strip(s) == "" {
      assert LStrip(s) == trail;
      BlankConcat(lead, trail);
    }
  }

  /** A tag is taken without the white space around it, with or without its `v`. */
  lemma NormalizeTagIff(value: string, tag: string)
    ensures NormalizeTag(value) == Some(tag) <==> IsTag(tag) && (tag == Strip(value) || tag == "v" + Strip(value))
  {
    var bare := Strip(value);
    if bare != "" && bare[0] == 'v' {
      assert ("v" + bare)[1..] == bare;
    }
  }

  /**
   An upsert succeeds if and only if the tag is one, the date is in the calendar, the
   notes are good and tell the mirror, the marker stands there once, and every version
   of the changelog has its own tag and a date.
   */
  lemma UpsertSucceedsIff(rules: Rules, c: string, tag: string, date: string, notes: string)
    ensures UpsertRelease(rules, c, tag, date, notes).Ok? <==>
            && NormalizeTag(tag).Some? && IsoDate(date) && GoodNotes(rules, Strip(notes) + "\n", true)
            && CountOf(c, MARKER) == 1 && GoodVersions(HeadingsOf(MatchesOf(c)))
  {
    hide PutEntry, MatchesOf, IsoDate, NormalizeTag;
    NotesAreGood(rules, Strip(notes) + "\n", true);
    VersionsAreGood(HeadingsOf(MatchesOf(c)));
  }

  // ----- the loops of the source -----

  /** The notes in the slice of one entry. */
  method ReadNotes(rules: Rules, slice: string) returns (notes: Result<string, Error>)
    ensures notes == NotesOf(rules, Strip(slice))
  {
    var body := Strip(slice);
    if body == "" {
      return Err(EmptyEntry);
    }
    var text := Strip(Transform(body, -1)) + "\n";
    var problem := ValidateNotes(rules, text, false);
    if problem.Some? {
      return Err(problem.value);
    }
    return Ok(text);
  }

  method FindEntry(rules: Rules, changelog: string, full: string) returns (notes: Result<string, Error>)
    ensures notes == ExtractEntry(rules, changelog, full)
  {
    var matches := MatchesOf(changelog);
    OrderOf(changelog);
    ghost var hs := HeadingsOf(matches);
    for index := 0 to |matches|
      invariant forall i :: 0 <= i < index ==> hs[i].tag != full
    {
      var found := matches[index];
      if found.heading.tag != full {
        continue;
      }
      FirstTag(hs, full, index);
      var end := if index + 1 < |matches| then matches[index + 1].start else |changelog|;
      notes := ReadNotes(rules, changelog[found.end..end]);
      return;
    }
    return Err(NoEntry);
  }

  /** `extract_release_notes` */
  method Extract(rules: Rules, changelog: string, tag: string) returns (notes: Result<string, Error>)
    ensures notes == ExtractReleaseNotes(rules, changelog, tag)
  {
    var normalized := NormalizeTag(tag);
    if normalized.None? {
      return Err(InvalidTag);
    }
    var problem := Check(HeadingsOf(MatchesOf(changelog)));
    if problem.Some? {
      return Err(problem.value);
    }
    notes := FindEntry(rules, changelog, normalized.value);
  }

  /** The end of both ways an entry is written. */
  method WriteEntry(above: string, entry: string, below: string) returns (updated: string)
    ensures updated == Place(above, entry, below)
  {
    var result := RStrip(above) + "\n\n" + entry;
    var suffix := LStripNewlines(below);
    if suffix != "" {
      result := result + "\n" + suffix;
    }
    return RStrip(result) + "\n";
  }

  method ReplaceOrInsert(changelog: string, full: string, entry: string) returns (updated: string)
    requires CountOf(changelog, MARKER) > 0
    ensures updated == PutEntry(changelog, full, entry)
  {
    hide MatchesOf, CountOf, EndOfFirst, Place;
    var matches := MatchesOf(changelog);
    OrderOf(changelog);
    ghost var hs := HeadingsOf(matches);
    for index := 0 to |matches|
      invariant forall i :: 0 <= i < index ==> hs[i].tag != full
    {
      var found := matches[index];
      if found.heading.tag != full {
        continue;
      }
      FirstTag(hs, full, index);
      var end := if index + 1 < |matches| then matches[index + 1].start else |changelog|;
      updated := WriteEntry(changelog[..found.start], entry, changelog[end..]);
      return;
    }
    var markerEnd := EndOfFirst(changelog, MARKER);
    updated := WriteEntry(changelog[..markerEnd], entry, changelog[markerEnd..]);
  }

  /** `upsert_release` */
  method Upsert(rules: Rules, changelog: string, tag: string, date: string, notes: string)
    returns (updated: Result<string, Error>)
    ensures updated == UpsertRelease(rules, changelog, tag, date, notes)
  {
    var normalized := NormalizeTag(tag);
    if normalized.None? {
      return Err(InvalidTag);
    }
    if !IsoDate(date) {
      return Err(InvalidDate);
    }
    var text := Strip(notes) + "\n";
    var problem := ValidateNotes(rules, text, true);
    if problem.Some? {
      return Err(problem.value);
    }
    var count := CountOf(changelog, MARKER);
    if count == 0 {
      return Err(MarkerMissing);
    }
    if count != 1 {
      return Err(MarkerRepeated);
    }
    problem := Check(HeadingsOf(MatchesOf(changelog)));
    if problem.Some? {
      return Err(problem.value);
    }
    var result := ReplaceOrInsert(changelog, normalized.value, EntryText(Heading(normalized.value, date), text));
    return Ok(result);
  }

  lemma {:induction false} FirstTag(hs: seq<Heading>, tag: string, i: nat)
    requires i < |hs| && hs[i].tag == tag
    requires forall j :: 0 <= j < i ==> hs[j].tag != tag
    ensures FindTag(hs, tag) == Some(i)
  {
    if i > 0 {
      FirstTag(hs[1..], tag, i - 1);
    }
  }

  // ----- the notes inside an entry -----

  lemma {:induction false} SplitLinesFull(s: string)
    ensures forall i :: 0 <= i < |SplitLines(s)| ==> SplitLines(s)[i] != ""
    ensures s != "" ==> SplitLines(s) != []
  {
    if s != "" {
      SplitLinesFull(s[LineLength(s)..]);
    }
  }

  lemma ShiftedLineEnds(line: string, delta: int)
    requires line != ""
    ensures ShiftLine(line, delta) != "" && ShiftLine(line, delta)[|ShiftLine(line, delta)| - 1] == line[|line| - 1]
  {
    ShiftedLine(Outside, line, delta);
  }

  ghost predicate EndsAlike(s: string, t: string) {
    s != "" && t != "" && s[|s| - 1] == t[|t| - 1]
  }

  lemma {:induction false} ShiftedEnds(f: Fence, lines: seq<string>, delta: int)
    requires lines != [] && forall i :: 0 <= i < |lines| ==> lines[i] != ""
    ensures EndsAlike(Concat(Shifted(f, lines, delta)), Concat(lines))
    decreases |lines|
  {
    var rest := lines[1..];
    var moved := Shifted(f, lines, delta);
    assert moved[1..] == Shifted(Step(f, lines[0]), rest, delta);
    ShiftedLineEnds(lines[0], delta);
    if rest != [] {
      ShiftedEnds(Step(f, lines[0]), rest, delta);
      EndsBehind(moved[0], Concat(moved[1..]), lines[0], Concat(rest));
    }
  }

  lemma EndsBehind(a: string, s: string, b: string, t: string)
    requires EndsAlike(s, t)
    ensures EndsAlike(a + s, b + t)
  {
  }

  /** Shifting headings leaves no white space to strip. */
  lemma TransformStripped(s: string, delta: int)
    requires Stripped(s)
    ensures Stripped(Transform(s, delta)) && (Transform(s, delta) == "" <==> s == "")
  {
    LinesOfShifted(Outside, s, delta);
    SplitLinesFull(s);
    SplitLinesSpell(s);
    if s != "" {
      ShiftedEnds(Outside, SplitLines(s), delta);
    }
  }

  lemma ShiftLineNewline(line: string, delta: int)
    ensures ShiftLine(line + "\n", delta) == ShiftLine(line, delta) + "\n"
  {
    RunBefore(line, '#', '\n');
    assert line != "" ==> (line + "\n")[1..] == line[1..] + "\n";
    assert "#" + (line + "\n") == ("#" + line) + "\n";
  }

  function ShiftFrom(f: Fence, s: string, delta: int): string {
    Concat(Shifted(f, SplitLines(s), delta))
  }

  lemma ShiftStep(f: Fence, s: string, delta: int)
    requires s != ""
    ensures var n := LineLength(s);
            ShiftFrom(f, s, delta) == (if Fenced(f, s[..n]) then s[..n] else ShiftLine(s[..n], delta))
                                      + ShiftFrom(Step(f, s[..n]), s[n..], delta)
  {
    var n := LineLength(s);
    var lines := SplitLines(s);
    assert lines[0] == s[..n] && lines[1..] == SplitLines(s[n..]);
    assert Shifted(f, lines, delta)[1..] == Shifted(Step(f, s[..n]), SplitLines(s[n..]), delta);
  }

  lemma {:induction false} OpenLineLength(s: string)
    requires s != "" && LineLength(s) == |s| && !IsBreak(s[|s| - 1])
    ensures LineLength(s + "\n") == |s| + 1
  {
    if |s| > 1 {
      OpenLineLength(s[1..]);
      assert (s + "\n")[1..] == s[1..] + "\n";
    }
  }

  lemma LastLineShift(f: Fence, s: string, delta: int)
    requires s != "" && !IsBreak(s[|s| - 1]) && LineLength(s) == |s|
    ensures ShiftFrom(f, s + "\n", delta) == ShiftFrom(f, s, delta) + "\n"
  {
    OpenLineLength(s);
    OneLineShift(f, s, delta);
    OneLineShift(f, s + "\n", delta);
    BlankMarker(s, '\n');
    ShiftLineNewline(s, delta);
  }

  lemma OneLineShift(f: Fence, s: string, delta: int)
    requires s != "" && LineLength(s) == |s|
    ensures ShiftFrom(f, s, delta) == if Fenced(f, s) then s else ShiftLine(s, delta)
  {
    ShiftStep(f, s, delta);
    assert s[..|s|] == s && s[|s|..] == "";
    assert ShiftFrom(Step(f, s), "", delta) == "";
  }

  /** The newline behind the notes plays no part in the shift. */
  lemma {:induction false} TransformNewline(f: Fence, s: string, delta: int)
    requires s != "" && !IsBreak(s[|s| - 1])
    ensures ShiftFrom(f, s + "\n", delta) == ShiftFrom(f, s, delta) + "\n"
    decreases |s|
  {
    hide ShiftFrom, ShiftLine, Fenced, Step, Marker;
    var n := LineLength(s);
    if n < |s| {
      ShiftStep(f, s, delta);
      ShiftStep(f, s + "\n", delta);
      LineLengthInside(s, "\n");
      PrefixSlices(s, "\n", n);
      TransformNewline(Step(f, s[..n]), s[n..], delta);
    } else {
      LastLineShift(f, s, delta);
    }
  }

  /** The body an upsert writes is the shifted notes, with nothing to strip. */
  lemma BodyIsShifted(notes: string)
    requires Stripped(notes) && notes != ""
    ensures Strip(Transform(notes + "\n", 1)) == Transform(notes, 1)
    ensures Stripped(Transform(notes, 1)) && Transform(notes, 1) != ""
  {
    TransformNewline(Outside, notes, 1);
    TransformStripped(notes, 1);
    StripBefore(Transform(notes, 1), "\n");
    StrippedStays(Transform(notes, 1));
  }

  // ----- no heading among the notes -----

  lemma {:induction false} LineGoesOn(t: string, k: nat)
    requires k < |t| && forall i :: 0 <= i < k ==> !IsBreak(t[i])
    ensures LineLength(t) > k
  {
    if k > 0 {
      LineGoesOn(t[1..], k - 1);
    }
  }

  /** A text whose mask starts with two hashes and a space starts with a second level heading. */
  lemma SecondLevelLine(t: string)
    requires |Mask(t)| == |t| && AtRow(Mask(t), 0)
    ensures Headings(Outside, SplitLines(t), 2) >= 1
  {
    var n := LineLength(t);
    var line := t[..n];
    TextStep(Outside, t);
    assert Mask(t)[0] == (if Fenced(Outside, line) then MaskLine(line) else line)[0];
    assert !Fenced(Outside, line) && t[0] == '#';
    LineGoesOn(t, 1);
    assert Mask(t)[1] == line[1];
    LineGoesOn(t, 2);
    assert Mask(t)[2] == line[2];
    assert Run(line[2..], '#') == 0 && line[1..][1..] == line[2..];
    assert Run(line, '#') == 1 + Run(line[1..], '#') == 2 + Run(line[2..], '#');
    var lines := SplitLines(t);
    assert lines[0] == line;
  }

  /** Where no second level heading stands outside a fence, there is no version. */
  lemma NoVersion(s: string)
    requires Headings(Outside, SplitLines(s), 2) == 0
    ensures MatchesOf(s) == []
  {
    if MatchesOf(s) != [] {
      var p := MatchesOf(s)[0].start;
      MatchIsOutside(s, 0);
      MatchAtRow(Mask(s), 0);
      SecondLevelBelow(s, p);
    }
  }

  lemma SecondLevelBelow(s: string, p: nat)
    requires p < |s| && EndsLine(s[..p]) && AfterText(Outside, s[..p]) == Outside && AtRow(Mask(s), p)
    ensures Headings(Outside, SplitLines(s), 2) >= 1
  {
    hide MaskFrom, Headings, SplitLines;
    var top, t := s[..p], s[p..];
    assert s == top + t;
    MaskConcat(Outside, top, t);
    MaskKeepsOffsets(Outside, top, 0);
    MaskKeepsOffsets(Outside, t, 0);
    assert Mask(t) == Mask(s)[p..];
    SecondLevelLine(t);
    SplitLinesConcat(top, t);
    HeadingsLines(Outside, SplitLines(top), SplitLines(t), 2);
  }
}
