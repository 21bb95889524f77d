/** Where an upsert writes, and how the text it writes reads back as entries. */
module ChangelogPlacing {
  import opened Basics
  import opened PyText
  import opened ChangelogHeadings
  import opened ChangelogVersions
  import opened ChangelogBlanks
  import opened Changelog

  // ----- an entry as text -----

  lemma {:induction false} UnbrokenLine(s: string)
    requires Unbroken(s)
    ensures LineLength(s + "\n") == |s| + 1
  {
    if s != "" {
      UnbrokenLine(s[1..]);
      assert (s + "\n")[1..] == s[1..] + "\n";
    }
  }

  lemma HashLine(s: string)
    requires s != "" && s[0] == '#'
    ensures Marker(s) == Outside
  {
  }

  /** The heading row of an entry stands on a line of its own, outside fences. */
  lemma HeadingLine(h: Heading)
    requires IsTag(h.tag) && DateShape(h.date)
    ensures Mask(Spell(h) + "\n") == Spell(h) + "\n" && AfterText(Outside, Spell(h) + "\n") == Outside
  {
    var row := Spell(h);
    SpeltRow(h);
    UnbrokenLine(row);
    HashLine(row + "\n");
    OneLine(Outside, row + "\n");
  }

  lemma {:induction false} NotIn(s: string)
    requires Unbroken(s)
    ensures '\n' !in s
  {
  }

  lemma OneRow(h: Heading)
    requires IsTag(h.tag) && DateShape(h.date)
    ensures Versions(Spell(h), 0) == [Match(0, |Spell(h)|, h)]
  {
    var row := Spell(h);
    SpeltRow(h);
    NotIn(row);
    LastRow(row);
    ReadSpelt(h);
    ScanCons(RowMatch, row, [], 0);
    assert Rows(row) == [row] + [];
  }

  lemma HeadingMatches(h: Heading)
    requires IsTag(h.tag) && DateShape(h.date)
    ensures MatchesOf(Spell(h) + "\n") == [Match(0, |Spell(h)|, h)]
  {
    HeadingLine(h);
    OneRow(h);
    VersionsNewline(Spell(h), 0);
  }

  /** What an upsert writes above the body. */
  function Head(h: Heading): string {
    Spell(h) + "\n\n"
  }

  lemma HeadOf(h: Heading)
    requires IsTag(h.tag) && DateShape(h.date)
    ensures EndsLine(Head(h)) && AfterText(Outside, Head(h)) == Outside
    ensures MatchesOf(Head(h)) == [Match(0, |Spell(h)|, h)]
  {
    HeadingLine(h);
    HeadingMatches(h);
    EntriesNewline(Spell(h) + "\n");
    assert Spell(h) + "\n" + "\n" == Head(h);
  }

  /** A heading with a body that holds no version reads as one entry. */
  lemma EntryReads(h: Heading, body: string, w: string)
    requires IsTag(h.tag) && DateShape(h.date)
    requires Stripped(body) && MatchesOf(body) == [] && AfterText(Outside, body) == Outside
    requires Newlines(w)
    ensures var text := Head(h) + body + w;
            && EntriesOf(text) == [Entry(h.tag, h.date, body)]
            && MatchesOf(text) == [Match(0, |Spell(h)|, h)]
            && AfterText(Outside, text) == Outside && Opens(text)
  {
    var text := Head(h) + body;
    HeadOf(h);
    MatchesConcat(Head(h), body);
    MaskConcat(Outside, Head(h), body);
    assert MatchesOf(text) == [Match(0, |Spell(h)|, h)] + Moved([], |Head(h)|);
    OneEntry(h, body);
    EntriesNewlines(text, w);
  }

  lemma OnlyEntry(text: string, m: Match)
    requires m.start < m.end <= |text|
    ensures Entries(text, [m]) == [Entry(m.heading.tag, m.heading.date, Strip(text[m.end..]))]
  {
    assert text[m.end..|text|] == text[m.end..];
  }

  lemma OneEntry(h: Heading, body: string)
    requires Stripped(body) && MatchesOf(Head(h) + body) == [Match(0, |Spell(h)|, h)]
    ensures EntriesOf(Head(h) + body) == [Entry(h.tag, h.date, body)]
  {
    hide MatchesOf, LStrip, RStrip;
    var text := Head(h) + body;
    OrderOf(text);
    OnlyEntry(text, Match(0, |Spell(h)|, h));
    assert text[|Spell(h)|..] == "\n\n" + body;
    LStripOf("\n\n", body);
    StrippedStays(body);
  }

  // ----- an entry put in its place -----

  lemma RStripDark(s: string)
    requires EndsDark(s)
    ensures RStrip(s) == s
  {
  }

  /** What follows an entry: nothing, or an empty row, left over white space and the text below. */
  function Tail(gap: string, below: string): string {
    if below == "" then "" else "\n" + gap + RStrip(below) + "\n"
  }

  /** White space that leaves the line end before it and the text behind it alone. */
  ghost predicate GapOk(gap: string) {
    Blank(gap) && EndsLine(gap)
  }

  lemma NothingBelow(front: string, entry: string, gap: string)
    requires EndsDark(entry) && Blank(gap)
    ensures RStrip(if gap == "" then front + (entry + "\n") else front + (entry + "\n") + "\n" + gap) + "\n"
            == front + (entry + "\n" + "")
  {
    var text := front + entry;
    assert front + (entry + "\n") == text + "\n" && text + "\n" + "\n" + gap == text + ("\n\n" + gap);
    RStripOf(text, "\n");
    BlankConcat("\n\n", gap);
    RStripOf(text, "\n\n" + gap);
    assert text[|text| - 1] == entry[|entry| - 1];
    RStripDark(text);
  }

  lemma SomethingBelow(result: string, gap: string, below: string)
    requires StartsDark(below)
    ensures RStrip(result + "\n" + (gap + below)) + "\n" == result + ("\n" + gap + RStrip(below) + "\n")
  {
    StripsBehind(result + "\n" + gap, below);
    Associate(result + "\n", gap, below);
  }

  /** The white space that stays between an entry and the text below it. */
  function Left(space: string, below: string): string {
    if below == "" then "" else LStripNewlines(space)
  }

  lemma LeftOf(space: string, below: string)
    requires Blank(space) && (below == "" || StartsDark(below))
    ensures LStripNewlines(space + below) == LStripNewlines(space) + below
    ensures Blank(LStripNewlines(space)) && (EndsLine(space) ==> EndsLine(LStripNewlines(space)))
  {
    var lead := LStripNewlinesSplits(space);
    var rest := LStripNewlines(space);
    BlankConcat(lead, rest);
    Associate(lead, rest, below);
    LStripNewlinesOf(lead, rest + below);
    assert rest != "" ==> space[|space| - 1] == rest[|rest| - 1];
  }

  /** `Place` writes the text above, an empty row, the entry, and the text below. */
  lemma PlaceForm(above: string, entry: string, space: string, below: string)
    requires EndsDark(entry) && Blank(space) && (below == "" || StartsDark(below))
    ensures Place(above, entry + "\n", space + below)
            == RStrip(above) + "\n\n" + (entry + "\n" + Tail(Left(space, below), below))
  {
    hide RStrip, LStripNewlines;
    var front, gap := RStrip(above) + "\n\n", LStripNewlines(space);
    LeftOf(space, below);
    if below == "" {
      assert gap + below == gap;
      NothingBelow(front, entry, gap);
    } else {
      assert gap + below != "";
      SomethingBelow(front + (entry + "\n"), gap, below);
      Associate(front, entry + "\n", Tail(gap, below));
    }
  }

  /** The text above, ended by one empty row. */
  function Above(above: string): string {
    RStrip(above) + "\n\n"
  }

  lemma AboveReads(above: string)
    requires SafeEnd(above)
    ensures EndsLine(Above(above)) && RStrip(Above(above)) == RStrip(above)
    ensures AfterText(Outside, Above(above)) == AfterText(Outside, above)
    ensures EntriesOf(Above(above)) == EntriesOf(above)
  {
    hide SafeEnd, MatchesOf, EntriesOf, AfterText;
    StrippedReads(above);
    EntriesNewlines(RStrip(above), "\n\n");
    RStripOf(RStrip(above), "\n\n");
    RStripTwice(above);
  }

  lemma RStripTwice(s: string)
    ensures RStrip(RStrip(s)) == RStrip(s)
  {
    var w := RStripSplits(s);
  }

  lemma OpensDark(n: string)
    requires Opens(n) && n != ""
    ensures StartsDark(n) && n[0] == '#'
  {
    MatchAtRow(Mask(n), 0);
    MaskKeepsOffsets(Outside, n, 0);
  }

  lemma BelowReads(below: string)
    requires SafeEnd(below) && Opens(below) && below != ""
    ensures StartsDark(below) && below[0] == '#'
    ensures Opens(RStrip(below) + "\n") && RStrip(below) + "\n" != "" && StartsDark(RStrip(below) + "\n")
    ensures EntriesOf(RStrip(below) + "\n") == EntriesOf(below)
    ensures Tail("", RStrip(below) + "\n") == Tail("", below)
  {
    hide SafeEnd, MatchesOf, EntriesOf, AfterText;
    OpensDark(below);
    StrippedReads(below);
    EntriesNewlines(RStrip(below), "\n");
    RStripOf(RStrip(below), "\n");
    RStripTwice(below);
    DarkStrips(below);
  }

  /** An entry with nothing below it, or with the text below put behind it. */
  lemma EntryWithTail(h: Heading, body: string, gap: string, below: string)
    requires IsTag(h.tag) && DateShape(h.date)
    requires Stripped(body) && MatchesOf(body) == [] && AfterText(Outside, body) == Outside
    requires GapOk(gap) && SafeEnd(below) && Opens(below)
    ensures var text := Head(h) + body + "\n" + Tail(gap, below);
            && EntriesOf(text) == [Entry(h.tag, h.date, body)] + EntriesOf(below)
            && Opens(text)
  {
    hide SafeEnd, AfterText;
    if below == "" {
      EntryReads(h, body, "\n");
      assert Head(h) + body + "\n" + Tail(gap, below) == Head(h) + body + "\n";
      NoEntries();
    } else {
      EntryAndRest(h, body, gap, below);
    }
  }

  lemma NoEntries()
    ensures EntriesOf("") == [] && MatchesOf("") == []
  {
  }

  /** An entry that ends in an empty row and more white space. */
  lemma EntrySpaced(h: Heading, body: string, gap: string)
    requires IsTag(h.tag) && DateShape(h.date)
    requires Stripped(body) && MatchesOf(body) == [] && AfterText(Outside, body) == Outside
    requires GapOk(gap)
    ensures var text := Head(h) + body + "\n\n" + gap;
            && EndsLine(text) && AfterText(Outside, text) == Outside
            && EntriesOf(text) == [Entry(h.tag, h.date, body)]
            && MatchesOf(text) != [] && MatchesOf(text)[0].start == 0
  {
    hide AfterText, EntriesOf;
    EntryReads(h, body, "\n\n");
    BlankBelow(Head(h) + body + "\n\n", gap);
    var text := Head(h) + body + "\n\n" + gap;
    assert text[|text| - 1] == (if gap == "" then '\n' else gap[|gap| - 1]);
  }

  lemma EntryAndRest(h: Heading, body: string, gap: string, below: string)
    requires IsTag(h.tag) && DateShape(h.date)
    requires Stripped(body) && MatchesOf(body) == [] && AfterText(Outside, body) == Outside
    requires GapOk(gap) && SafeEnd(below) && Opens(below) && below != ""
    ensures var text := Head(h) + body + "\n" + Tail(gap, below);
            && EntriesOf(text) == [Entry(h.tag, h.date, body)] + EntriesOf(below)
            && Opens(text)
  {
    hide SafeEnd, MatchesOf, EntriesOf, AfterText, GapOk;
    BelowReads(below);
    EntrySpaced(h, body, gap);
    TailSplits(Head(h) + body, gap, RStrip(below));
    JoinOpens(Head(h) + body + "\n\n" + gap, RStrip(below) + "\n");
  }

  lemma TailSplits(front: string, gap: string, rest: string)
    ensures front + "\n" + ("\n" + gap + rest + "\n") == (front + "\n\n" + gap) + (rest + "\n")
  {
  }

  lemma JoinOpens(text: string, rest: string)
    requires EndsLine(text) && AfterText(Outside, text) == Outside && Opens(rest)
    requires MatchesOf(text) != [] && MatchesOf(text)[0].start == 0
    ensures EntriesOf(text + rest) == EntriesOf(text) + EntriesOf(rest)
    ensures Opens(text + rest)
  {
    EntriesConcat(text, rest);
    MatchesConcat(text, rest);
    assert (MatchesOf(text) + Moved(MatchesOf(rest), |text|))[0] == MatchesOf(text)[0];
  }

  /** The entry stands between the entries above and those below. */
  lemma PlacedEntries(above: string, h: Heading, body: string, gap: string, below: string)
    requires IsTag(h.tag) && DateShape(h.date)
    requires Stripped(body) && MatchesOf(body) == [] && AfterText(Outside, body) == Outside
    requires SafeEnd(above) && AfterText(Outside, above) == Outside
    requires GapOk(gap) && SafeEnd(below) && Opens(below)
    ensures EntriesOf(Above(above) + (Head(h) + body + "\n" + Tail(gap, below)))
            == EntriesOf(above) + ([Entry(h.tag, h.date, body)] + EntriesOf(below))
  {
    hide SafeEnd, MatchesOf, EntriesOf, AfterText, GapOk, Opens;
    AboveReads(above);
    EntryWithTail(h, body, gap, below);
    EntriesConcat(Above(above), Head(h) + body + "\n" + Tail(gap, below));
  }

  // ----- where an upsert writes -----

  /** The text with the entry in its place. */
  function Written(above: string, h: Heading, body: string, gap: string, below: string): string {
    Above(above) + (Head(h) + body + "\n" + Tail(gap, below))
  }

  /** The pieces of an upsert fit together. */
  ghost predicate Fits(above: string, h: Heading, body: string, gap: string, below: string) {
    && IsTag(h.tag) && IsoDate(h.date)
    && Stripped(body) && body != "" && MatchesOf(body) == [] && AfterText(Outside, body) == Outside
    && SafeEnd(above) && AfterText(Outside, above) == Outside
    && GapOk(gap) && SafeEnd(below) && Opens(below)
  }

  /** Notes whose fences are closed make a body without a version of its own. */
  lemma BodyFits(notes: string)
    requires Stripped(notes) && notes != "" && AfterText(Outside, notes) == Outside
    ensures var body := Transform(notes, 1);
            && Stripped(body) && body != "" && MatchesOf(body) == [] && AfterText(Outside, body) == Outside
            && Strip(Transform(notes + "\n", 1)) == body
  {
    BodyIsShifted(notes);
    LinesOfShifted(Outside, notes, 1);
    FencesSurvive(Outside, SplitLines(notes), 1);
    NoSecondLevel(Outside, SplitLines(notes), 1);
    NoVersion(Transform(notes, 1));
  }

  /** Where the `i`-th match starts, or the end of the text. */
  function StartAt(ms: seq<Match>, end: nat, i: nat): nat
    requires i <= |ms|
  {
    if i < |ms| then ms[i].start else end
  }

  function StartOf(c: string, i: nat): (at: nat)
    requires i <= |MatchesOf(c)|
    ensures at <= |c|
  {
    OrderOf(c);
    StartAt(MatchesOf(c), |c|, i)
  }

  /** Between the insertion marker and the `i`-th heading, or the end of the text, there is only white space. */
  predicate Clear(c: string, i: nat)
    requires CountOf(c, MARKER) > 0 && i <= |MatchesOf(c)|
  {
    EndOfFirst(c, MARKER) <= StartOf(c, i) && Blank(c[EndOfFirst(c, MARKER)..StartOf(c, i)])
  }

  /**
   The place an upsert of `tag` writes to, as the index among the entries: where the
   tag stands now, when stripping the text above its heading makes no heading of the
   last row there; or below a marker that nothing but white space parts from the next
   heading and that is not inside a fence.
   */
  predicate PlacedAt(c: string, tag: string, i: nat)
    requires CountOf(c, MARKER) > 0
  {
    && i <= |MatchesOf(c)| && SafeEnd(c)
    && match FindTag(HeadingsOf(MatchesOf(c)), tag)
       case Some(k) => i == k && SafeEnd(c[..StartOf(c, i)])
       case None => Clear(c, i) && (i < |MatchesOf(c)| || AfterText(Outside, c) == Outside)
  }
}
