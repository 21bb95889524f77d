/**
 The same upsert twice: when the second call changes nothing, when it is refused, and
 changelogs for which an upsert does what one would not expect.
 */
module ChangelogSecondUpsert {
  import opened Basics
  import opened PyText
  import opened ChangelogHeadings
  import opened ChangelogVersions
  import opened ChangelogBlanks
  import opened Changelog
  import opened ChangelogMarker
  import opened ChangelogPlacing
  import opened ChangelogRoundTrip

  // ----- the second upsert -----

  /** The text below a written entry, as it stands in the written text. */
  function Rest(below: string): string {
    if below == "" then "" else RStrip(below) + "\n"
  }

  lemma SecondMatch(text: string, rest: string, h: Heading)
    requires EndsLine(text) && AfterText(Outside, text) == Outside && Opens(rest) && rest != ""
    requires |EntriesOf(text)| == 1 && MatchesOf(text) != [] && MatchesOf(text)[0].start == 0
    ensures |MatchesOf(text + rest)| > 1 && MatchesOf(text + rest)[1].start == |text|
    ensures MatchesOf(text + rest)[0].start == 0
  {
    EntriesMatch(text);
    MatchesConcat(text, rest);
    assert MatchesOf(text + rest)[1] == Moved(MatchesOf(rest), |text|)[0];
  }

  /** An entry with its tail: it starts the text, and ends where the rest begins. */
  lemma EntryEnds(h: Heading, body: string, gap: string, below: string)
    requires IsTag(h.tag) && DateShape(h.date)
    requires Stripped(body) && MatchesOf(body) == [] && AfterText(Outside, body) == Outside
    requires GapOk(gap) && SafeEnd(below) && Opens(below)
    ensures var text := Head(h) + body + "\n" + Tail(gap, below);
            && MatchesOf(text) != [] && StartOf(text, 0) == 0
            && StartOf(text, 1) + |Rest(below)| == |text|
            && text[StartOf(text, 1)..] == Rest(below)
  {
    hide MatchesOf, AfterText, EntriesOf, RStrip, SafeEnd, GapOk;
    var text := Head(h) + body + "\n" + Tail(gap, below);
    if below == "" {
      EntryReads(h, body, "\n");
      assert text == Head(h) + body + "\n";
      assert text[|text|..] == "";
    } else {
      BelowReads(below);
      EntrySpaced(h, body, gap);
      TailSplits(Head(h) + body, gap, RStrip(below));
      var front := Head(h) + body + "\n\n" + gap;
      SecondMatch(front, Rest(below), h);
      assert (front + Rest(below))[|front|..] == Rest(below);
    }
  }

  lemma StartMoved(a: seq<Match>, b: seq<Match>, offset: nat, end: nat, k: nat)
    requires k <= |b|
    ensures StartAt(a + Moved(b, offset), offset + end, |a| + k) == offset + StartAt(b, end, k)
  {
  }

  lemma StartMoves(top: string, text: string, k: nat)
    requires EndsLine(top) && AfterText(Outside, top) == Outside && k <= |MatchesOf(text)|
    ensures |MatchesOf(top)| + k <= |MatchesOf(top + text)|
    ensures StartOf(top + text, |MatchesOf(top)| + k) == |top| + StartOf(text, k)
  {
    hide MatchesOf, AfterText, Moved, StartAt;
    MatchesConcat(top, text);
    OrderOf(top + text);
    MovedLength(MatchesOf(text), |top|);
    StartMoved(MatchesOf(top), MatchesOf(text), |top|, |text|, k);
  }

  lemma MovedLength(ms: seq<Match>, offset: nat)
    ensures |Moved(ms, offset)| == |ms|
  {
  }

  lemma CutBetween(top: string, text: string, k: nat)
    requires k <= |text|
    ensures (top + text)[..|top| + 0] == top && (top + text)[|top| + k..] == text[k..]
  {
  }

  /** Read again, a text put behind a top falls into the same pieces. */
  lemma FallsApart(top: string, text: string, end: nat)
    requires EndsLine(top) && AfterText(Outside, top) == Outside
    requires MatchesOf(text) != [] && StartOf(text, 0) == 0 && StartOf(text, 1) == end
    ensures var r, i := top + text, |MatchesOf(top)|;
            i + 1 <= |MatchesOf(r)| && StartOf(r, i) == |top| && StartOf(r, i + 1) == |top| + end
  {
    hide MatchesOf, StartOf, AfterText;
    StartMoves(top, text, 0);
    StartMoves(top, text, 1);
  }

  lemma AboveCount(above: string)
    requires SafeEnd(above)
    ensures |MatchesOf(Above(above))| == |MatchesOf(above)|
  {
    hide SafeEnd, MatchesOf, EntriesOf;
    AboveReads(above);
    EntriesMatch(above);
    EntriesMatch(Above(above));
  }

  lemma WrittenFallsApart(above: string, h: Heading, body: string, gap: string, below: string)
    requires Fits(above, h, body, gap, below)
    ensures var r, i := Written(above, h, body, gap, below), |MatchesOf(above)|;
            && i + 1 <= |MatchesOf(r)|
            && r[..StartOf(r, i)] == Above(above)
            && r[StartOf(r, i + 1)..] == Rest(below)
  {
    hide MatchesOf, StartOf, AfterText, EntriesOf, RStrip, MaskFrom, SafeEnd;
    AboveReads(above);
    AboveCount(above);
    var text := Head(h) + body + "\n" + Tail(gap, below);
    EntryEnds(h, body, gap, below);
    FallsApart(Above(above), text, StartOf(text, 1));
    CutBetween(Above(above), text, StartOf(text, 1));
  }

  /** Writing the same entry into the pieces of what was written leaves out the white space below the entry. */
  lemma WrittenAgain(above: string, h: Heading, body: string, below: string)
    requires SafeEnd(above) && SafeEnd(below) && Opens(below) && Stripped(body) && body != ""
    ensures Place(Above(above), Head(h) + body + "\n", Rest(below)) == Written(above, h, body, "", below)
  {
    hide SafeEnd, MatchesOf, AfterText, EntriesOf, Place;
    AboveReads(above);
    HeadEndsDark(h, body);
    if below != "" {
      BelowReads(below);
    }
    assert "" + Rest(below) == Rest(below);
    PlaceForm(Above(above), Head(h) + body, "", Rest(below));
  }

  lemma PlaceAgain(above: string, h: Heading, body: string, gap: string, below: string, r: string, i: nat)
    requires Fits(above, h, body, gap, below) && r == Written(above, h, body, gap, below) && i == |MatchesOf(above)|
    ensures i + 1 <= |MatchesOf(r)|
    ensures Place(r[..StartOf(r, i)], Head(h) + body + "\n", r[StartOf(r, i + 1)..])
            == Written(above, h, body, "", below)
  {
    hide SafeEnd, MatchesOf, AfterText, EntriesOf, Place, Written;
    WrittenFallsApart(above, h, body, gap, below);
    WrittenAgain(above, h, body, below);
  }

  /** What the second of two identical calls gives, by how often the marker is in the text before it. */
  function ByMarker(r: string, tidy: string): Result<string, Error> {
    if CountOf(r, MARKER) == 1 then Ok(tidy)
    else if CountOf(r, MARKER) == 0 then Err(MarkerMissing)
    else Err(MarkerRepeated)
  }

  /** The call's own arguments are fine, whatever the changelog. */
  ghost predicate GoodArguments(rules: Rules, tag: string, date: string, notes: string) {
    && NormalizeTag(tag).Some? && IsoDate(date) && Strip(notes) != ""
    && ValidateNotes(rules, Strip(notes) + "\n", true).None?
    && AfterText(Outside, Strip(notes)) == Outside
  }

  lemma GoodRefusal(rules: Rules, r: string, tag: string, date: string, notes: string)
    requires GoodArguments(rules, tag, date, notes) && Check(HeadingsOf(MatchesOf(r))).None?
    ensures CountOf(r, MARKER) == 1 ==> Refusal(rules, r, tag, date, notes).None?
    ensures CountOf(r, MARKER) == 0 ==> Refusal(rules, r, tag, date, notes) == Some(MarkerMissing)
    ensures CountOf(r, MARKER) > 1 ==> Refusal(rules, r, tag, date, notes) == Some(MarkerRepeated)
  {
    hide CountOf, MatchesOf, NormalizeTag, IsoDate, Strip, AfterText, ValidateNotes, Check;
  }

  /** Upserting again into a text in which the entry stands already. */
  lemma UpsertWritten(rules: Rules, tag: string, date: string, notes: string, r: string, i: nat, tidy: string)
    requires GoodArguments(rules, tag, date, notes)
    requires Check(HeadingsOf(MatchesOf(r))).None? && i + 1 <= |MatchesOf(r)|
    requires FindTag(HeadingsOf(MatchesOf(r)), NormalizeTag(tag).value) == Some(i)
    requires Place(r[..StartOf(r, i)], EntryText(Release(tag, date), Strip(notes) + "\n"), r[StartOf(r, i + 1)..])
             == tidy
    ensures UpsertRelease(rules, r, tag, date, notes) == ByMarker(r, tidy)
  {
    hide CountOf, MatchesOf, NormalizeTag, IsoDate, Strip, AfterText, ValidateNotes, Check, Place, EntryText, Refusal;
    GoodRefusal(rules, r, tag, date, notes);
    OrderOf(r);
  }

  /** Over any written text the entry is found, and nothing is wrong with the headings. */
  lemma WrittenEntries(rules: Rules, c: string, tag: string, date: string, notes: string, i: nat, gap: string)
    requires GoodUpsert(rules, c, tag, date, notes, i) && GapOk(gap)
    ensures var h := Release(tag, date);
            var r := Written(AboveOf(c, h.tag, i), h, BodyOf(notes), gap, BelowOf(c, h.tag, i));
            && Fits(AboveOf(c, h.tag, i), h, BodyOf(notes), gap, BelowOf(c, h.tag, i))
            && Check(HeadingsOf(MatchesOf(r))).None? && FindTag(HeadingsOf(MatchesOf(r)), h.tag) == Some(i)
  {
    hide UpsertRelease, MatchesOf, EntriesOf, NormalizeTag, PlacedAt, AfterText, Above, Tail, Head, SafeEnd, CountOf,
         AboveOf, GapOf, BelowOf, IsoDate, Strip, Check, GapOk;
    var h := Release(tag, date);
    var e := Entry(h.tag, date, BodyOf(notes));
    UpsertPieces(rules, c, tag, date, notes, i);
    UpsertAccepts(rules, c, tag, date, notes);
    DatesHaveShape(date);
    var r := Written(AboveOf(c, h.tag, i), h, BodyOf(notes), gap, BelowOf(c, h.tag, i));
    PlacedEntries(AboveOf(c, h.tag, i), h, BodyOf(notes), gap, BelowOf(c, h.tag, i));
    assert PutIn(EntriesOf(c), i, Replaced(c, h.tag), e, EntriesOf(r)) by {
      UpsertPutsIn(rules, c, tag, date, notes, i);
      UpsertPutsOneEntry(rules, c, tag, date, notes, i);
    }
    PutKeepsCheck(EntriesOf(c), i, Replaced(c, h.tag), e, EntriesOf(r));
    PutFindsNew(EntriesOf(c), i, Replaced(c, h.tag), e, EntriesOf(r));
    HeadsOf(r);
  }

  lemma DatesHaveShape(date: string)
    requires IsoDate(date)
    ensures DateShape(date)
  {
  }

  lemma GoodCall(rules: Rules, c: string, tag: string, date: string, notes: string, i: nat)
    requires GoodUpsert(rules, c, tag, date, notes, i)
    ensures GoodArguments(rules, tag, date, notes)
  {
    hide UpsertRelease, PlacedAt, CountOf, AfterText, ValidateNotes, MatchesOf, IsoDate;
    UpsertAccepts(rules, c, tag, date, notes);
  }

  /** The same call on what was written, with whatever white space below the entry. */
  lemma SecondCall(rules: Rules, c: string, tag: string, date: string, notes: string, i: nat, gap: string)
    requires GoodUpsert(rules, c, tag, date, notes, i) && GapOk(gap)
    ensures var h := Release(tag, date);
            var above, below := AboveOf(c, h.tag, i), BelowOf(c, h.tag, i);
            UpsertRelease(rules, Written(above, h, BodyOf(notes), gap, below), tag, date, notes)
            == ByMarker(Written(above, h, BodyOf(notes), gap, below), Written(above, h, BodyOf(notes), "", below))
  {
    hide UpsertRelease, MatchesOf, EntriesOf, NormalizeTag, PlacedAt, AfterText, SafeEnd, CountOf, Place, EntryText,
         AboveOf, GapOf, BelowOf, IsoDate, Strip, Check, GapOk, Written, Fits, ValidateNotes;
    var h := Release(tag, date);
    var above, below := AboveOf(c, h.tag, i), BelowOf(c, h.tag, i);
    var r := Written(above, h, BodyOf(notes), gap, below);
    GoodCall(rules, c, tag, date, notes, i);
    UpsertPieces(rules, c, tag, date, notes, i);
    WrittenEntries(rules, c, tag, date, notes, i, gap);
    PlaceAgain(above, h, BodyOf(notes), gap, below, r, i);
    UpsertWritten(rules, tag, date, notes, r, i, Written(above, h, BodyOf(notes), "", below));
  }

  /** The markers of a changelog, by its pieces. */
  lemma MarkersInPieces(c: string, tag: string, i: nat)
    requires CountOf(c, MARKER) > 0 && PlacedAt(c, tag, i)
    ensures CountOf(c, MARKER) == CountOf(AboveOf(c, tag, i), MARKER) + CountOf(OldOf(c, tag, i), MARKER)
                                  + CountOf(BelowOf(c, tag, i), MARKER)
  {
    hide CountOf, MatchesOf, SafeEnd, PlacedAt, AboveOf, SpaceOf, OldOf, BelowOf, Replaced;
    TheMarker();
    InPieces(c, tag, i);
    PiecesFit(c, i, tag);
    OldStarts(c, tag, i);
    var above, space, old_, below := AboveOf(c, tag, i), SpaceOf(c, tag, i), OldOf(c, tag, i), BelowOf(c, tag, i);
    if below != "" {
      OpensDark(below);
    }
    CountFour(above, space, old_, below, MARKER);
  }

  ghost predicate StartsWithHash(s: string) {
    s == "" || s[0] == '#'
  }

  lemma OldStarts(c: string, tag: string, i: nat)
    requires CountOf(c, MARKER) > 0 && PlacedAt(c, tag, i)
    ensures StartsWithHash(OldOf(c, tag, i))
  {
    hide CountOf, SafeEnd, MaskFrom;
    RoomBelow(c, i, tag);
    OrderOf(c);
    if Replaced(c, tag) == 1 {
      MatchAtRow(Mask(c), i);
      MaskKeepsOffsets(Outside, c, StartOf(c, i));
    }
  }

  lemma CountFour(above: string, space: string, old_: string, below: string, m: string)
    requires MarkerLike(m) && Blank(space) && StartsWithHash(old_) && StartsWithHash(below)
    ensures CountOf(above + space + old_ + below, m) == CountOf(above, m) + CountOf(old_, m) + CountOf(below, m)
  {
    hide CountOf;
    NotInMarker(m, '#');
    BlankLacks(space, m[|m| - 1]);
    CountBefore(above, space, m);
    CountApart(above + space, old_, m);
    CountApart(above + space + old_, below, m);
  }

  /** The markers of the written changelog: those there were, less those of the old entry, plus those of the notes. */
  lemma MarkersWritten(rules: Rules, c: string, tag: string, date: string, notes: string, i: nat, gap: string)
    requires GoodUpsert(rules, c, tag, date, notes, i) && GapOk(gap)
    ensures var h := Release(tag, date);
            CountOf(Written(AboveOf(c, h.tag, i), h, BodyOf(notes), gap, BelowOf(c, h.tag, i)), MARKER)
            == 1 - CountOf(OldOf(c, h.tag, i), MARKER) + CountOf(notes, MARKER)
  {
    hide UpsertRelease, MatchesOf, EntriesOf, NormalizeTag, PlacedAt, AfterText, SafeEnd, CountOf, Place, EntryText,
         AboveOf, GapOf, BelowOf, OldOf, IsoDate, Strip, Check, Written, Tail, Above, Head;
    var h := Release(tag, date);
    TheMarker();
    UpsertAccepts(rules, c, tag, date, notes);
    MarkersInPieces(c, h.tag, i);
    DatesHaveShape(date);
    CountWritten(AboveOf(c, h.tag, i), h, BodyOf(notes), gap, BelowOf(c, h.tag, i), MARKER);
    CountTransform(Strip(notes), 1, MARKER);
    CountStripped(notes, MARKER);
  }

  /**
   A second identical upsert. It is refused exactly when the insertion marker stood in
   the entry that was replaced and not in the notes, or more often in the notes than
   there. Otherwise it changes nothing, unless white space other than newlines stood
   between the marker and the next heading: that it takes out, and then a third
   one changes nothing.
   */
  lemma SecondUpsertIsNoOp(rules: Rules, c: string, tag: string, date: string, notes: string, i: nat)
    requires GoodUpsert(rules, c, tag, date, notes, i)
    ensures var r, full := UpsertRelease(rules, c, tag, date, notes).value, NormalizeTag(tag).value;
            var lost, gained := CountOf(OldOf(c, full, i), MARKER), CountOf(notes, MARKER);
            var second := UpsertRelease(rules, r, tag, date, notes);
            && (gained < lost ==> second == Err(MarkerMissing))
            && (gained > lost ==> second == Err(MarkerRepeated))
            && (gained == lost ==> second.Ok? && (second == Ok(r) <==> GapOf(c, full, i) == "")
                                   && UpsertRelease(rules, second.value, tag, date, notes) == second)
  {
    hide UpsertRelease, MatchesOf, EntriesOf, NormalizeTag, PlacedAt, AfterText, SafeEnd, CountOf, Place, EntryText,
         AboveOf, GapOf, BelowOf, OldOf, IsoDate, Strip, Check, Written, Fits, Tail, Above, Head;
    var h := Release(tag, date);
    var above, gap, below := AboveOf(c, h.tag, i), GapOf(c, h.tag, i), BelowOf(c, h.tag, i);
    UpsertPieces(rules, c, tag, date, notes, i);
    GapFits(above, h, BodyOf(notes), gap, below);
    SecondCall(rules, c, tag, date, notes, i, gap);
    SecondCall(rules, c, tag, date, notes, i, "");
    MarkersWritten(rules, c, tag, date, notes, i, gap);
    MarkersWritten(rules, c, tag, date, notes, i, "");
    GapsDiffer(above, h, BodyOf(notes), gap, below);
    assert below == "" ==> gap == "" by { NoGapAtEnd(c, h.tag, i); }
  }

  lemma NoGapAtEnd(c: string, tag: string, i: nat)
    requires CountOf(c, MARKER) > 0 && PlacedAt(c, tag, i)
    ensures BelowOf(c, tag, i) == "" ==> GapOf(c, tag, i) == ""
  {
    hide CountOf, PlacedAt, BelowOf, SpaceOf;
  }

  lemma GapFits(above: string, h: Heading, body: string, gap: string, below: string)
    requires Fits(above, h, body, gap, below)
    ensures GapOk(gap) && GapOk("")
  {
  }

  lemma GapsDiffer(above: string, h: Heading, body: string, gap: string, below: string)
    ensures gap == "" ==> Written(above, h, body, gap, below) == Written(above, h, body, "", below)
    ensures gap != "" && below != "" ==> Written(above, h, body, gap, below) != Written(above, h, body, "", below)
  {
    hide RStrip;
    if gap != "" && below != "" {
      assert |Written(above, h, body, gap, below)| == |Written(above, h, body, "", below)| + |gap|;
    }
  }

  // ----- changelogs for which it goes wrong -----

  lemma TagIsNormal(tag: string)
    requires IsTag(tag)
    ensures NormalizeTag(tag) == Some(tag)
  {
    TagHasTagChars(tag);
    assert TagChar(tag[|tag| - 1]) && Stripped(tag);
    StrippedStays(tag);
  }

  lemma NoHashNoMatch(s: string)
    requires '#' !in s
    ensures MatchesOf(s) == [] && EntriesOf(s) == []
  {
    hide MaskFrom, Versions;
    if MatchesOf(s) != [] {
      var p := MatchesOf(s)[0].start;
      MatchAtRow(Mask(s), 0);
      MaskKeepsOffsets(Outside, s, p);
    }
    EntriesMatch(s);
  }

  lemma OpenMarker(m: string)
    requires MarkerLike(m)
    ensures Marker(m + "\n") == Outside
  {
  }

  /** The marker on a line of its own. */
  lemma MarkerLine(m: string)
    requires MarkerLike(m)
    ensures AfterText(Outside, m + "\n") == Outside && AfterText(Outside, m + "\n\n") == Outside
    ensures MatchesOf(m + "\n") == [] && EntriesOf(m + "\n\n") == [] && MatchesOf(m + "\n\n") == []
    ensures CountOf(m + "\n", m) == 1 && CountOf(m + "\n\n", m) == 1
  {
    UnbrokenLine(m);
    OpenMarker(m);
    OneLine(Outside, m + "\n");
    NoHashNoMatch(m + "\n");
    EntriesNewline(m + "\n");
    assert m + "\n" + "\n" == m + "\n\n";
    NotInMarker(m, '\n');
    CountSelf(m);
    CountBefore(m, "\n", m);
    CountBefore(m, "\n\n", m);
  }

  lemma CountSelf(m: string)
    requires m != ""
    ensures CountOf(m, m) == 1
  {
    assert m[..|m|] == m && m[|m|..] == "";
    ShortCountsNone("", m);
  }

  lemma OneHeading(h: Heading)
    requires IsoDate(h.date)
    ensures Check([h]).None? && FindTag([h], h.tag) == Some(0)
  {
    assert Repeated([h]) == {};
  }

  /** A changelog whose marker stands in the only entry. */
  function MarkerInEntry(h: Heading, m: string): string {
    Spell(h) + "\n" + (m + "\n")
  }

  lemma MarkerInEntryReads(h: Heading, m: string)
    requires IsTag(h.tag) && IsoDate(h.date) && MarkerLike(m)
    ensures var c := MarkerInEntry(h, m);
            && MatchesOf(c) == [Match(0, |Spell(h)|, h)] && SafeEnd(c) && CountOf(c, m) == 1
  {
    hide CountOf, SafeEnd, MatchesOf, AfterText, Spell;
    DatesHaveShape(h.date);
    HeadingMatches(h);
    HeadingLine(h);
    MarkerLine(m);
    MatchesConcat(Spell(h) + "\n", m + "\n");
    assert MatchesOf(MarkerInEntry(h, m)) == [Match(0, |Spell(h)|, h)] + Moved([], |Spell(h) + "\n"|);
    CountLine(Spell(h), m + "\n", m);
    CountSpelt(h, m);
    BracketIsSafe(Spell(h) + "\n" + m, "\n");
    assert MarkerInEntry(h, m) == Spell(h) + "\n" + m + "\n";
  }

  /** Replacing the entry that holds the marker loses it: the second call is refused. */
  lemma MarkerCanGetLost(rules: Rules, h: Heading, notes: string)
    requires IsTag(h.tag) && GoodArguments(rules, h.tag, h.date, notes) && CountOf(notes, MARKER) == 0
    ensures var first := UpsertRelease(rules, MarkerInEntry(h, MARKER), h.tag, h.date, notes);
            first.Ok? && UpsertRelease(rules, first.value, h.tag, h.date, notes) == Err(MarkerMissing)
  {
    hide CountOf, SafeEnd, MatchesOf, AfterText, Refusal, PutEntry, ValidateNotes, IsoDate, Strip, NormalizeTag;
    var c := MarkerInEntry(h, MARKER);
    TheMarker();
    MarkerInEntryReads(h, MARKER);
    TagIsNormal(h.tag);
    OneHeading(h);
    assert HeadingsOf(MatchesOf(c)) == [h];
    GoodRefusal(rules, c, h.tag, h.date, notes);
    EmptyIsSafe();
    assert c[..0] == "";
    assert PlacedAt(c, h.tag, 0);
    assert OldOf(c, h.tag, 0) == c[0..|c|] == c;
    SecondUpsertIsNoOp(rules, c, h.tag, h.date, notes, 0);
  }

  lemma EmptyIsSafe()
    ensures SafeEnd("")
  {
  }

  lemma FirstMarker(m: string, rest: string)
    requires m != ""
    ensures CountOf(m + rest, m) > 0 && EndOfFirst(m + rest, m) == |m|
  {
    assert (m + rest)[..|m|] == m;
  }

  /** Notes that hold the marker double it: the second call is refused. */
  lemma MarkerCanDouble(rules: Rules, tag: string, date: string, notes: string)
    requires GoodArguments(rules, tag, date, notes) && CountOf(notes, MARKER) > 0
    ensures var first := UpsertRelease(rules, MARKER + "\n", tag, date, notes);
            first.Ok? && UpsertRelease(rules, first.value, tag, date, notes) == Err(MarkerRepeated)
  {
    hide CountOf, SafeEnd, MatchesOf, AfterText, Refusal, PutEntry, ValidateNotes, IsoDate, Strip, NormalizeTag;
    var c := MARKER + "\n";
    TheMarker();
    MarkerLine(MARKER);
    FirstMarker(MARKER, "\n");
    BracketIsSafe(MARKER, "\n");
    NothingToCheck();
    assert HeadingsOf(MatchesOf(c)) == [];
    GoodRefusal(rules, c, tag, date, notes);
    assert c[|MARKER|..|c|] == "\n";
    assert PlacedAt(c, NormalizeTag(tag).value, 0);
    ShortCountsNone("", MARKER);
    SecondUpsertIsNoOp(rules, c, tag, date, notes, 0);
  }

  lemma NothingToCheck()
    ensures Check([]).None?
  {
    assert Repeated([]) == {};
  }

  const VERTICAL_TAB: char := '\U{000B}'

  /** A row that a vertical tab keeps from being a heading. */
  lemma TabbedRow(h: Heading)
    requires IsTag(h.tag) && DateShape(h.date)
    ensures var row := Spell(h) + [VERTICAL_TAB];
            && ReadHeading(row) == None && ReadHeading(RStrip(row)) == Some(h)
            && MatchesOf(row) == [] && AfterText(Outside, row) == Outside
  {
    hide ReadHeading, Spell, MaskFrom, AfterText;
    var row := Spell(h) + [VERTICAL_TAB];
    SpeltRow(h);
    RStripOf(Spell(h), [VERTICAL_TAB]);
    RStripDark(Spell(h));
    ReadSpelt(h);
    ReadOtherBlank(Spell(h), VERTICAL_TAB);
    TabEndsLine(Spell(h), VERTICAL_TAB);
    HashLine(row);
    OneLine(Outside, row);
    NotIn(Spell(h));
    OneRowVersions(row, 0);
    assert RowMatch(row, 0) == [];
  }

  lemma {:induction false} TabEndsLine(s: string, x: char)
    requires Unbroken(s) && IsBreak(x) && x != '\r'
    ensures LineLength(s + [x]) == |s| + 1
  {
    if s != "" {
      TabEndsLine(s[1..], x);
      assert (s + [x])[1..] == s[1..] + [x];
    }
  }

  /** The marker, a row that is almost a heading, and an entry below it. */
  function AlmostEntry(m: string, almost: Heading): string {
    (m + "\n\n") + (Spell(almost) + [VERTICAL_TAB] + "\n\n")
  }

  lemma AlmostReads(m: string, almost: Heading)
    requires MarkerLike(m) && IsTag(almost.tag) && DateShape(almost.date)
    ensures var top := AlmostEntry(m, almost);
            && EndsLine(top) && AfterText(Outside, top) == Outside && MatchesOf(top) == []
            && CountOf(top, m) == 1 && RStrip(top) == (m + "\n\n") + Spell(almost)
  {
    hide CountOf, MatchesOf, AfterText, Spell, MaskFrom, RStrip;
    var row := Spell(almost) + [VERTICAL_TAB];
    MarkerLine(m);
    TabbedRow(almost);
    EntriesNewlines(row, "\n\n");
    MatchesConcat(m + "\n\n", row + "\n\n");
    MaskConcat(Outside, m + "\n\n", row + "\n\n");
    assert Moved([], |m + "\n\n"|) == [];
    NotInMarker(m, '\n');
    CountApart(m + "\n\n", row + "\n\n", m);
    CountSpelt(almost, m);
    BlankLacks([VERTICAL_TAB] + "\n\n", m[|m| - 1]);
    assert row + "\n\n" == Spell(almost) + ([VERTICAL_TAB] + "\n\n");
    CountBefore(Spell(almost), [VERTICAL_TAB] + "\n\n", m);
    var text := (m + "\n\n") + Spell(almost);
    assert AlmostEntry(m, almost) == text + ([VERTICAL_TAB] + "\n\n");
    RStripOf(text, [VERTICAL_TAB] + "\n\n");
    SpellEndsDark(almost);
    assert text[|text| - 1] == Spell(almost)[|Spell(almost)| - 1];
    RStripDark(text);
  }

  /** The changelog with a real entry below. */
  lemma AlmostAndReal(m: string, almost: Heading, h: Heading)
    requires MarkerLike(m) && IsTag(almost.tag) && DateShape(almost.date) && IsTag(h.tag) && DateShape(h.date)
    ensures var c := AlmostEntry(m, almost) + (Spell(h) + "\n");
            && MatchesOf(c) == [Match(|AlmostEntry(m, almost)|, |AlmostEntry(m, almost)| + |Spell(h)|, h)]
            && CountOf(c, m) == 1
  {
    hide CountOf, MatchesOf, AfterText, Spell, AlmostEntry;
    var top := AlmostEntry(m, almost);
    AlmostReads(m, almost);
    HeadingMatches(h);
    MatchesConcat(top, Spell(h) + "\n");
    assert [] + Moved([Match(0, |Spell(h)|, h)], |top|) == [Match(|top|, |top| + |Spell(h)|, h)];
    SpeltRow(h);
    NotInMarker(m, '#');
    CountApart(top, Spell(h) + "\n", m);
    CountSpelt(h, m);
    NotInMarker(m, '\n');
    CountBefore(Spell(h), "\n", m);
  }

  /** Stripped, the row that was almost a heading is one: the text above reads as an empty entry. */
  lemma AlmostIsEntry(m: string, almost: Heading)
    requires MarkerLike(m) && IsTag(almost.tag) && DateShape(almost.date)
    ensures var front := (m + "\n\n") + Head(almost);
            && EntriesOf(front) == [Entry(almost.tag, almost.date, "")]
            && EndsLine(front) && AfterText(Outside, front) == Outside
  {
    hide MatchesOf, AfterText, Spell, EntriesOf, CountOf, RStrip;
    MarkerLine(m);
    HeadOf(almost);
    assert Head(almost) + "" == Head(almost);
    OneEntry(almost, "");
    EntriesConcat(m + "\n\n", Head(almost));
    MaskConcat(Outside, m + "\n\n", Head(almost));
  }

  lemma AlmostPlaced(m: string, almost: Heading, entry: string)
    requires MarkerLike(m) && IsTag(almost.tag) && DateShape(almost.date) && EndsDark(entry)
    ensures Place(AlmostEntry(m, almost), entry + "\n", "") == (m + "\n\n") + Head(almost) + (entry + "\n")
  {
    hide AfterText, Spell, AlmostEntry, Place, MatchesOf, CountOf, RStrip;
    AlmostReads(m, almost);
    assert "" + "" == "";
    PlaceForm(AlmostEntry(m, almost), entry, "", "");
    assert entry + "\n" + "" == entry + "\n";
    assert (m + "\n\n") + Spell(almost) + "\n\n" == (m + "\n\n") + Head(almost);
  }

  /** What the upsert of the real entry leaves. */
  lemma AlmostBecomesEntry(m: string, almost: Heading, h: Heading, body: string)
    requires MarkerLike(m) && IsTag(almost.tag) && DateShape(almost.date) && IsTag(h.tag) && DateShape(h.date)
    requires Stripped(body) && body != "" && MatchesOf(body) == [] && AfterText(Outside, body) == Outside
    ensures EntriesOf(Place(AlmostEntry(m, almost), Head(h) + body + "\n", ""))
            == [Entry(almost.tag, almost.date, ""), Entry(h.tag, h.date, body)]
  {
    hide CountOf, MatchesOf, AfterText, Spell, Head, AlmostEntry, Place, EntriesOf, RStrip;
    HeadEndsDark(h, body);
    AlmostPlaced(m, almost, Head(h) + body);
    AlmostIsEntry(m, almost);
    EntryReads(h, body, "\n");
    EntriesConcat((m + "\n\n") + Head(almost), Head(h) + body + "\n");
  }

  /**
   Why stripping the text above a replaced heading must make no heading: here the row
   above is one but for a vertical tab. Its tag has no entry before the upsert of the
   other tag, and an empty one after it.
   */
  lemma StrippingCanMakeAHeading(rules: Rules, almost: Heading, h: Heading, notes: string)
    requires IsTag(almost.tag) && IsoDate(almost.date) && IsTag(h.tag) && almost.tag != h.tag
    requires GoodArguments(rules, h.tag, h.date, notes)
    ensures var c := AlmostEntry(MARKER, almost) + (Spell(h) + "\n");
            var first := UpsertRelease(rules, c, h.tag, h.date, notes);
            && ExtractReleaseNotes(rules, c, almost.tag) == Err(NoEntry)
            && first.Ok? && ExtractReleaseNotes(rules, first.value, almost.tag) == Err(EmptyEntry)
  {
    hide CountOf, MatchesOf, AfterText, Spell, AlmostEntry, Place, EntriesOf, RStrip, Refusal, ValidateNotes, IsoDate,
         Strip, NormalizeTag, EntryText;
    var top := AlmostEntry(MARKER, almost);
    var c := top + (Spell(h) + "\n");
    TheMarker();
    DatesHaveShape(almost.date);
    DatesHaveShape(h.date);
    AlmostAndReal(MARKER, almost, h);
    TagIsNormal(h.tag);
    TagIsNormal(almost.tag);
    OneHeading(h);
    assert HeadingsOf(MatchesOf(c)) == [h];
    GoodRefusal(rules, c, h.tag, h.date, notes);
    BodyOfFits(h, notes);
    AlmostBecomesEntry(MARKER, almost, h, BodyOf(notes));
    assert c[..|top|] == top && c[|c|..] == "";
    OrderOf(c);
    var r := UpsertRelease(rules, c, h.tag, h.date, notes).value;
    EmptyEntryReads(rules, r, almost, h, BodyOf(notes));
  }

  lemma EmptyEntryReads(rules: Rules, r: string, almost: Heading, h: Heading, body: string)
    requires IsoDate(almost.date) && IsoDate(h.date)
    requires almost.tag != h.tag && NormalizeTag(almost.tag) == Some(almost.tag)
    requires EntriesOf(r) == [Entry(almost.tag, almost.date, ""), Entry(h.tag, h.date, body)]
    ensures ExtractReleaseNotes(rules, r, almost.tag) == Err(EmptyEntry)
  {
    hide EntriesOf, IsoDate, NormalizeTag, Strip, Transform, ExtractReleaseNotes;
    ExtractReadsEntries(rules, r, almost.tag);
    var hs := Heads(EntriesOf(r));
    assert hs == [almost, h];
    assert Repeated(hs) == {};
  }
}
