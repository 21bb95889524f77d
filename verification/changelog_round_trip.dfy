/** Extracting after upserting: the round trip, the frame, and runs of upserts. */
module ChangelogRoundTrip {
  import opened Basics
  import opened PyText
  import opened ChangelogHeadings
  import opened ChangelogVersions
  import opened ChangelogBlanks
  import opened Changelog
  import opened ChangelogMarker
  import opened ChangelogPlacing

  // ----- the pieces of an upsert -----

  /** From a heading on the entries are those from its index on. */
  lemma EntriesFromMatch(c: string, i: nat)
    requires i < |MatchesOf(c)| && SafeEnd(c)
    ensures var below := c[StartOf(c, i)..];
            Opens(below) && SafeEnd(below) && EntriesOf(below) == EntriesOf(c)[i..]
  {
    hide SafeEnd, MatchesOf, EntriesOf, AfterText;
    SplitAtMatch(c, i);
    var p := StartOf(c, i);
    OpensDark(c[p..]);
    assert c == c[..p] + c[p..];
    SafeBelow(c[..p], c[p..]);
  }

  lemma NothingFrom(c: string, i: nat)
    requires i == |MatchesOf(c)|
    ensures var below := c[StartOf(c, i)..];
            Opens(below) && SafeEnd(below) && EntriesOf(below) == EntriesOf(c)[i..]
  {
    assert c[|c|..] == "";
    NoEntries();
  }

  lemma EntriesFrom(c: string, i: nat)
    requires i <= |MatchesOf(c)| && SafeEnd(c)
    ensures var below := c[StartOf(c, i)..];
            Opens(below) && SafeEnd(below) && EntriesOf(below) == EntriesOf(c)[i..]
  {
    if i < |MatchesOf(c)| {
      EntriesFromMatch(c, i);
    } else {
      NothingFrom(c, i);
    }
  }

  lemma EndsLikePart(s: string, end: nat, part: string)
    requires |part| <= end <= |s| && s[end - |part|..end] == part && EndsDark(part)
    ensures s[..end] != "" && s[..end][end - 1] == part[|part| - 1]
  {
    assert s[..end][end - 1] == s[end - |part|..end][|part| - 1];
  }

  lemma MarkerEnd(c: string)
    requires CountOf(c, MARKER) > 0
    ensures var end := EndOfFirst(c, MARKER); 0 < end <= |c| && c[..end] != "" && c[..end][end - 1] == '>'
  {
    TheMarker();
    MarkerEndOf(c, MARKER);
  }

  lemma MarkerEndOf(c: string, m: string)
    requires MarkerLike(m) && CountOf(c, m) > 0
    ensures var end := EndOfFirst(c, m); 0 < end <= |c| && c[..end] != "" && c[..end][end - 1] == '>'
  {
    hide CountOf;
    EndsLikePart(c, EndOfFirst(c, m), m);
  }

  lemma HeadEndsDark(h: Heading, body: string)
    requires Stripped(body) && body != ""
    ensures EndsDark(Head(h) + body)
  {
    assert (Head(h) + body)[|Head(h) + body| - 1] == body[|body| - 1];
  }

  /** The release an upsert writes, once its arguments are normalized. */
  function Release(tag: string, date: string): Heading
    requires NormalizeTag(tag).Some?
  {
    Heading(NormalizeTag(tag).value, date)
  }

  /** The body an upsert writes. */
  function BodyOf(notes: string): string {
    Transform(Strip(notes), 1)
  }

  /** How many entries the written one takes the place of. */
  function Replaced(c: string, tag: string): nat {
    if FindTag(HeadingsOf(MatchesOf(c)), tag).Some? then 1 else 0
  }

  /** An upsert of closed notes into a place it may write to. */
  ghost predicate GoodUpsert(rules: Rules, c: string, tag: string, date: string, notes: string, i: nat) {
    && UpsertRelease(rules, c, tag, date, notes).Ok?
    && NormalizeTag(tag).Some? && CountOf(c, MARKER) > 0
    && AfterText(Outside, Strip(notes)) == Outside
    && PlacedAt(c, NormalizeTag(tag).value, i)
  }

  lemma RoomBelow(c: string, i: nat, tag: string)
    requires CountOf(c, MARKER) > 0 && PlacedAt(c, tag, i)
    ensures i + Replaced(c, tag) <= |MatchesOf(c)|
  {
  }

  /** The text above the place of the entry: up to the old heading, or up to the marker. */
  ghost function AboveOf(c: string, tag: string, i: nat): string
    requires CountOf(c, MARKER) > 0 && PlacedAt(c, tag, i)
  {
    if Replaced(c, tag) == 1 then c[..StartOf(c, i)] else c[..EndOfFirst(c, MARKER)]
  }

  /** The white space between the marker and the next heading, where a new entry goes in. */
  ghost function SpaceOf(c: string, tag: string, i: nat): string
    requires CountOf(c, MARKER) > 0 && PlacedAt(c, tag, i)
  {
    if Replaced(c, tag) == 1 then "" else c[EndOfFirst(c, MARKER)..StartOf(c, i)]
  }

  /** The entry that goes, as it stands in the changelog. */
  ghost function OldOf(c: string, tag: string, i: nat): string
    requires CountOf(c, MARKER) > 0 && PlacedAt(c, tag, i)
  {
    RoomBelow(c, i, tag);
    OrderOf(c);
    if Replaced(c, tag) == 1 then c[StartOf(c, i)..StartOf(c, i + 1)] else ""
  }

  ghost function BelowOf(c: string, tag: string, i: nat): string
    requires CountOf(c, MARKER) > 0 && PlacedAt(c, tag, i)
  {
    RoomBelow(c, i, tag);
    c[StartOf(c, i + Replaced(c, tag))..]
  }

  /** The changelog in these pieces. */
  lemma InPieces(c: string, tag: string, i: nat)
    requires CountOf(c, MARKER) > 0 && PlacedAt(c, tag, i)
    ensures c == AboveOf(c, tag, i) + SpaceOf(c, tag, i) + OldOf(c, tag, i) + BelowOf(c, tag, i)
    ensures Replaced(c, tag) == 0 ==>
              OldOf(c, tag, i) == "" && c[..StartOf(c, i)] == AboveOf(c, tag, i) + SpaceOf(c, tag, i)
    ensures Replaced(c, tag) == 1 ==> SpaceOf(c, tag, i) == "" && AboveOf(c, tag, i) == c[..StartOf(c, i)]
  {
    hide MatchesOf, SafeEnd, EntriesOf, CountOf;
    RoomBelow(c, i, tag);
    OrderOf(c);
    if Replaced(c, tag) == 1 {
      CutThree(c, StartOf(c, i), StartOf(c, i + 1));
    } else {
      CutThree(c, EndOfFirst(c, MARKER), StartOf(c, i));
      var top, space := c[..EndOfFirst(c, MARKER)], c[EndOfFirst(c, MARKER)..StartOf(c, i)];
      assert top + space + "" + c[StartOf(c, i)..] == top + space + c[StartOf(c, i)..];
      assert c[..StartOf(c, i)] == top + space;
    }
  }

  lemma CutThree(c: string, a: nat, b: nat)
    requires a <= b <= |c|
    ensures c == c[..a] + c[a..b] + c[b..] && c == c[..a] + "" + c[a..b] + c[b..]
  {
  }

  /** Above the place of a new entry: the marker's end, and the entries above. */
  lemma MarkerFits(c: string, tag: string, i: nat)
    requires CountOf(c, MARKER) > 0 && PlacedAt(c, tag, i) && Replaced(c, tag) == 0
    ensures var above, space := AboveOf(c, tag, i), SpaceOf(c, tag, i);
            && SafeEnd(above) && AfterText(Outside, above) == Outside && EntriesOf(above) == EntriesOf(c)[..i]
            && Blank(space) && (StartOf(c, i) < |c| ==> EndsLine(space))
  {
    hide SafeEnd, MatchesOf, EntriesOf, AfterText, CountOf;
    var above, space := AboveOf(c, tag, i), SpaceOf(c, tag, i);
    MarkerEnd(c);
    InPieces(c, tag, i);
    EntriesAbove(c, i);
    BracketIsSafe(above, space);
    BracketIsSafe(above, "");
    assert above + "" == above;
    StrippedReads(above + space);
    if i < |MatchesOf(c)| {
      MatchIsOutside(c, i);
      LineBehind(above, space);
    }
  }

  lemma LineBehind(above: string, space: string)
    requires EndsLine(above + space) && above != "" && above[|above| - 1] == '>'
    ensures EndsLine(space)
  {
    assert space == "" ==> above + space == above;
  }

  lemma OldFits(c: string, tag: string, i: nat)
    requires CountOf(c, MARKER) > 0 && PlacedAt(c, tag, i) && Replaced(c, tag) == 1
    ensures var above := AboveOf(c, tag, i);
            SafeEnd(above) && AfterText(Outside, above) == Outside && EntriesOf(above) == EntriesOf(c)[..i]
  {
    hide SafeEnd, EntriesOf, AfterText, CountOf;
    EntriesAbove(c, i);
  }

  /** The pieces of the changelog around the place of the entry. */
  lemma PiecesFit(c: string, i: nat, tag: string)
    requires CountOf(c, MARKER) > 0 && PlacedAt(c, tag, i)
    ensures i + Replaced(c, tag) <= |MatchesOf(c)|
    ensures var above, space, below := AboveOf(c, tag, i), SpaceOf(c, tag, i), BelowOf(c, tag, i);
            && SafeEnd(above) && AfterText(Outside, above) == Outside
            && Blank(space) && GapOk(Left(space, below))
            && SafeEnd(below) && Opens(below)
            && EntriesOf(above) == EntriesOf(c)[..i]
            && EntriesOf(below) == EntriesOf(c)[i + Replaced(c, tag)..]
  {
    hide SafeEnd, MatchesOf, EntriesOf, AfterText, CountOf, AboveOf;
    RoomBelow(c, i, tag);
    EntriesFrom(c, i + Replaced(c, tag));
    var space, below := SpaceOf(c, tag, i), BelowOf(c, tag, i);
    if below != "" {
      OpensDark(below);
    }
    if Replaced(c, tag) == 1 {
      OldFits(c, tag, i);
      LeftOf("", below);
    } else {
      MarkerFits(c, tag, i);
      LeftOf(space, below);
    }
  }

  /** The entry as text. */
  lemma EntryTextIs(h: Heading, notes: string)
    requires Stripped(notes) && notes != "" && AfterText(Outside, notes) == Outside
    ensures EntryText(h, notes + "\n") == Head(h) + Transform(notes, 1) + "\n"
  {
    BodyFits(notes);
  }

  /** An upsert places the entry between these pieces. */
  lemma EntryPlaced(c: string, full: string, entry: string, i: nat)
    requires CountOf(c, MARKER) > 0 && PlacedAt(c, full, i)
    ensures PutEntry(c, full, entry) == Place(AboveOf(c, full, i), entry, SpaceOf(c, full, i) + BelowOf(c, full, i))
  {
    hide Place, SafeEnd, MatchesOf, CountOf, Blank, AfterText, EndOfFirst;
    RoomBelow(c, i, full);
    OrderOf(c);
    if Replaced(c, full) == 1 {
      assert "" + BelowOf(c, full, i) == BelowOf(c, full, i);
    } else {
      CutTwice(c, EndOfFirst(c, MARKER), StartOf(c, i));
    }
  }

  lemma CutTwice(c: string, a: nat, b: nat)
    requires a <= b <= |c|
    ensures c[a..] == c[a..b] + c[b..]
  {
  }

  lemma EntriesMatch(c: string)
    ensures |EntriesOf(c)| == |MatchesOf(c)|
  {
    OrderOf(c);
  }

  /** The white space that stays between a written entry and the text below it. */
  ghost function GapOf(c: string, tag: string, i: nat): string
    requires CountOf(c, MARKER) > 0 && PlacedAt(c, tag, i)
  {
    Left(SpaceOf(c, tag, i), BelowOf(c, tag, i))
  }

  /** The text an upsert places, from pieces that fit. */
  lemma PlaceWrites(above: string, h: Heading, body: string, space: string, below: string)
    requires Fits(above, h, body, Left(space, below), below) && Blank(space)
    ensures Place(above, Head(h) + body + "\n", space + below) == Written(above, h, body, Left(space, below), below)
  {
    hide SafeEnd, MatchesOf, AfterText, Head, Place, Tail;
    HeadEndsDark(h, body);
    if below != "" {
      OpensDark(below);
    }
    PlaceForm(above, Head(h) + body, space, below);
  }

  /** Above and below the written entry stand the pieces of the changelog. */
  lemma UpsertPieces(rules: Rules, c: string, tag: string, date: string, notes: string, i: nat)
    requires GoodUpsert(rules, c, tag, date, notes, i)
    ensures var h, body := Release(tag, date), BodyOf(notes);
            var above, gap, below := AboveOf(c, h.tag, i), GapOf(c, h.tag, i), BelowOf(c, h.tag, i);
            && Fits(above, h, body, gap, below)
            && UpsertRelease(rules, c, tag, date, notes).value == Written(above, h, body, gap, below)
            && EntriesOf(above) == EntriesOf(c)[..i] && i == |MatchesOf(above)|
            && i + Replaced(c, h.tag) <= |EntriesOf(c)|
            && EntriesOf(below) == EntriesOf(c)[i + Replaced(c, h.tag)..]
            && EntryText(h, Strip(notes) + "\n") == Head(h) + body + "\n"
  {
    hide UpsertRelease, PutEntry, EntryText, MatchesOf, EntriesOf, NormalizeTag, PlacedAt, AfterText, StartOf, SafeEnd,
         CountOf, AboveOf, SpaceOf, BelowOf;
    var h, body := Release(tag, date), BodyOf(notes);
    UpsertAccepts(rules, c, tag, date, notes);
    EntryPlaced(c, h.tag, EntryText(h, Strip(notes) + "\n"), i);
    PiecesFit(c, i, h.tag);
    EntriesMatch(c);
    EntriesMatch(AboveOf(c, h.tag, i));
    BodyOfFits(h, notes);
    PlaceWrites(AboveOf(c, h.tag, i), h, body, SpaceOf(c, h.tag, i), BelowOf(c, h.tag, i));
  }

  lemma BodyOfFits(h: Heading, notes: string)
    requires Strip(notes) != "" && AfterText(Outside, Strip(notes)) == Outside
    ensures var body := BodyOf(notes);
            && Stripped(body) && body != "" && MatchesOf(body) == [] && AfterText(Outside, body) == Outside
            && EntryText(h, Strip(notes) + "\n") == Head(h) + body + "\n"
  {
    StripIsStripped(notes);
    BodyFits(Strip(notes));
    EntryTextIs(h, Strip(notes));
  }

  /** What an upsert has checked when it succeeds. */
  lemma UpsertAccepts(rules: Rules, c: string, tag: string, date: string, notes: string)
    requires UpsertRelease(rules, c, tag, date, notes).Ok?
    ensures NormalizeTag(tag).Some? && IsTag(NormalizeTag(tag).value) && IsoDate(date)
    ensures Strip(notes) != "" && ValidateNotes(rules, Strip(notes) + "\n", true).None?
    ensures CountOf(c, MARKER) == 1 && Check(HeadingsOf(MatchesOf(c))).None?
    ensures UpsertRelease(rules, c, tag, date, notes).value
            == PutEntry(c, NormalizeTag(tag).value, EntryText(Release(tag, date), Strip(notes) + "\n"))
  {
    NotesNotEmpty(notes);
  }

  lemma NotesNotEmpty(notes: string)
    requires Strip(Strip(notes) + "\n") != ""
    ensures Strip(notes) != ""
  {
    if Strip(notes) == "" {
      AllBlank("" + "\n");
    }
  }

  lemma EntriesAbove(c: string, i: nat)
    requires i < |MatchesOf(c)| || (i == |MatchesOf(c)| && AfterText(Outside, c) == Outside)
    ensures AfterText(Outside, c[..StartOf(c, i)]) == Outside
    ensures EntriesOf(c[..StartOf(c, i)]) == EntriesOf(c)[..i]
  {
    if i < |MatchesOf(c)| {
      SplitAtMatch(c, i);
    } else {
      assert c[..|c|] == c;
    }
  }

  /**
   An upsert puts one entry in its place: the old one of its tag goes, and
   every other entry keeps its tag, its date, its body and its order.
   */
  lemma UpsertPutsOneEntry(rules: Rules, c: string, tag: string, date: string, notes: string, i: nat)
    requires GoodUpsert(rules, c, tag, date, notes, i)
    ensures var r := UpsertRelease(rules, c, tag, date, notes).value;
            var full := NormalizeTag(tag).value;
            && i + Replaced(c, full) <= |EntriesOf(c)|
            && EntriesOf(r) == EntriesOf(c)[..i] + ([Entry(full, date, BodyOf(notes))]
                                                    + EntriesOf(c)[i + Replaced(c, full)..])
  {
    hide UpsertRelease, MatchesOf, EntriesOf, NormalizeTag, PlacedAt, AfterText, Above, Tail, Head, SafeEnd, CountOf,
         AboveOf, GapOf, BelowOf, Replaced, BodyOf, EntryText, Stripped, Opens, GapOk, IsTag, Strip;
    UpsertPieces(rules, c, tag, date, notes, i);
    var full := NormalizeTag(tag).value;
    PlacedEntries(AboveOf(c, full, i), Release(tag, date), BodyOf(notes), GapOf(c, full, i), BelowOf(c, full, i));
  }

  // ----- reading entries -----

  function HeadingOfEntry(e: Entry): Heading {
    Heading(e.tag, e.date)
  }

  function Heads(es: seq<Entry>): seq<Heading> {
    seq(|es|, i requires 0 <= i < |es| => HeadingOfEntry(es[i]))
  }

  /** An extract sees no more of a changelog than its entries. */
  function ExtractFrom(rules: Rules, es: seq<Entry>, tag: string): Result<string, Error> {
    match NormalizeTag(tag)
    case None => Err(InvalidTag)
    case Some(full) =>
      match Check(Heads(es))
      case Some(e) => Err(e)
      case None =>
        match FindTag(Heads(es), full)
        case None => Err(NoEntry)
        case Some(i) => NotesOf(rules, es[i].body)
  }

  lemma HeadsOf(c: string)
    ensures Heads(EntriesOf(c)) == HeadingsOf(MatchesOf(c))
  {
    OrderOf(c);
  }

  lemma ExtractReadsEntries(rules: Rules, c: string, tag: string)
    ensures ExtractReleaseNotes(rules, c, tag) == ExtractFrom(rules, EntriesOf(c), tag)
  {
    hide MatchesOf, Check, NormalizeTag, NotesOf, Strip;
    HeadsOf(c);
    OrderOf(c);
  }

  /** One entry among others, in the place of at most one of its tag. */
  ghost predicate PutIn(es: seq<Entry>, i: nat, gone: nat, e: Entry, after: seq<Entry>) {
    && i + gone <= |es|
    && after == es[..i] + ([e] + es[i + gone..])
    && Check(Heads(es)).None? && IsoDate(e.date)
    && match FindTag(Heads(es), e.tag)
       case Some(k) => k == i && gone == 1
       case None => gone == 0
  }

  lemma TagsDiffer(hs: seq<Heading>, i: nat, j: nat)
    requires Repeated(hs) == {} && i < j < |hs|
    ensures hs[i].tag != hs[j].tag
  {
    var tag := hs[i].tag;
    assert hs[j].tag == tag ==> tag in Repeated(hs);
  }

  lemma FindOnly(hs: seq<Heading>, k: nat)
    requires Repeated(hs) == {} && k < |hs|
    ensures FindTag(hs, hs[k].tag) == Some(k)
  {
    var f := FindTag(hs, hs[k].tag).value;
    if f < k {
      TagsDiffer(hs, f, k);
    } else if k < f {
      TagsDiffer(hs, k, f);
    }
  }

  /** Where the `k`-th entry of the new list stood before. */
  function Before(i: nat, gone: nat, k: nat): nat {
    if k <= i then k else k - 1 + gone
  }

  lemma PutAt(es: seq<Entry>, i: nat, gone: nat, e: Entry, after: seq<Entry>, k: nat)
    requires PutIn(es, i, gone, e, after) && k < |after|
    ensures k == i ==> after[k] == e
    ensures k != i ==> Before(i, gone, k) < |es| && after[k] == es[Before(i, gone, k)] && after[k].tag != e.tag
  {
    if k != i {
      var b := Before(i, gone, k);
      assert after[k] == es[b];
      assert Heads(es)[b].tag == es[b].tag;
      if FindTag(Heads(es), e.tag).Some? && es[b].tag == e.tag {
        FindOnly(Heads(es), b);
      }
    }
  }

  lemma PutKeepsCheck(es: seq<Entry>, i: nat, gone: nat, e: Entry, after: seq<Entry>)
    requires PutIn(es, i, gone, e, after)
    ensures Check(Heads(after)).None? && Repeated(Heads(after)) == {}
  {
    var hs := Heads(after);
    forall k | 0 <= k < |after| ensures IsoDate(hs[k].date) {
      PutAt(es, i, gone, e, after, k);
      if k != i {
        assert hs[k] == Heads(es)[Before(i, gone, k)];
      }
    }
    forall j, k | 0 <= j < k < |after| ensures hs[j].tag != hs[k].tag {
      PutAt(es, i, gone, e, after, j);
      PutAt(es, i, gone, e, after, k);
      if j != i && k != i {
        TagsDiffer(Heads(es), Before(i, gone, j), Before(i, gone, k));
      }
    }
    assert Repeated(hs) == {};
  }

  lemma PutFindsNew(es: seq<Entry>, i: nat, gone: nat, e: Entry, after: seq<Entry>)
    requires PutIn(es, i, gone, e, after)
    ensures FindTag(Heads(after), e.tag) == Some(i) && after[i] == e
  {
    PutKeepsCheck(es, i, gone, e, after);
    PutAt(es, i, gone, e, after, i);
    assert Heads(after)[i].tag == e.tag;
    FindOnly(Heads(after), i);
  }

  /** Another tag is found where it was, or nowhere before and after. */
  lemma PutFindsOthers(es: seq<Entry>, i: nat, gone: nat, e: Entry, after: seq<Entry>, tag: string)
    requires PutIn(es, i, gone, e, after) && tag != e.tag
    ensures FindTag(Heads(after), tag).Some? <==> FindTag(Heads(es), tag).Some?
    ensures FindTag(Heads(after), tag).Some? ==>
              after[FindTag(Heads(after), tag).value] == es[FindTag(Heads(es), tag).value]
  {
    hide IsoDate, Repeated;
    PutKeepsCheck(es, i, gone, e, after);
    if FindTag(Heads(after), tag).Some? {
      var k := FindTag(Heads(after), tag).value;
      PutAt(es, i, gone, e, after, k);
      assert Heads(es)[Before(i, gone, k)].tag == tag;
    }
    if FindTag(Heads(es), tag).Some? {
      var b := FindTag(Heads(es), tag).value;
      assert gone == 1 ==> Heads(es)[i].tag == e.tag;
      var k := if b < i then b else b + 1 - gone;
      PutAt(es, i, gone, e, after, k);
      assert Heads(after)[k].tag == tag;
      FindOnly(Heads(after), k);
    }
  }

  lemma UpsertPutsIn(rules: Rules, c: string, tag: string, date: string, notes: string, i: nat)
    requires GoodUpsert(rules, c, tag, date, notes, i)
    ensures var full := NormalizeTag(tag).value;
            PutIn(EntriesOf(c), i, Replaced(c, full), Entry(full, date, BodyOf(notes)),
                  EntriesOf(UpsertRelease(rules, c, tag, date, notes).value))
  {
    UpsertPutsOneEntry(rules, c, tag, date, notes, i);
    UpsertAccepts(rules, c, tag, date, notes);
    HeadsOf(c);
  }

  // ----- the whole text -----

  /** Where an upsert of a tag cuts the changelog: around the entry of the tag, or behind the marker. */
  ghost predicate CutsAt(c: string, tag: string, top: nat, bottom: nat) {
    var ms := MatchesOf(c);
    && top <= bottom <= |c|
    && if exists k :: 0 <= k < |ms| && ms[k].heading.tag == tag then
         exists k :: 0 <= k < |ms| && ms[k].heading.tag == tag && top == ms[k].start
                     && bottom == StartAt(ms, |c|, k + 1)
       else
         top == bottom && |MARKER| <= top && c[top - |MARKER|..top] == MARKER
  }

  /** The text below an entry: an empty row and that text, or nothing when only white space is left. */
  function Under(below: string): string {
    if Blank(below) then "" else "\n" + RStrip(LStripNewlines(below)) + "\n"
  }

  lemma UnderIsTail(space: string, dark: string)
    requires Blank(space) && (dark == "" || StartsDark(dark))
    ensures Under(space + dark) == Tail(Left(space, dark), dark)
  {
    LeftOf(space, dark);
    if dark == "" {
      assert space + dark == space;
    } else {
      assert (space + dark)[|space|] == dark[0];
      StripsBehind(LStripNewlines(space), dark);
    }
  }

  lemma PlaceKeepsText(above: string, entry: string, below: string)
    requires EndsDark(entry)
    ensures Place(above, entry + "\n", below) == RStrip(above) + "\n\n" + (entry + "\n" + Under(below))
  {
    hide Place, RStrip, Tail, Left, Under;
    var space := LStripSplits(below);
    PlaceForm(above, entry, space, LStrip(below));
    UnderIsTail(space, LStrip(below));
  }

  lemma EntryIsHead(h: Heading, notes: string)
    requires Strip(notes) != ""
    ensures EntryText(h, Strip(notes) + "\n") == Head(h) + BodyOf(notes) + "\n" && EndsDark(Head(h) + BodyOf(notes))
  {
    StripIsStripped(notes);
    BodyIsShifted(Strip(notes));
    HeadEndsDark(h, BodyOf(notes));
  }

  lemma PutKeepsText(c: string, tag: string, entry: string)
    requires CountOf(c, MARKER) > 0 && EndsDark(entry)
    ensures exists top: nat, bottom: nat ::
              && CutsAt(c, tag, top, bottom)
              && PutEntry(c, tag, entry + "\n") == RStrip(c[..top]) + "\n\n" + (entry + "\n" + Under(c[bottom..]))
  {
    hide MatchesOf, CountOf, EndOfFirst, Place, Under, RStrip;
    OrderOf(c);
    var ms := MatchesOf(c);
    match FindTag(HeadingsOf(ms), tag) {
      case Some(k) =>
        assert ms[k].heading.tag == tag;
        assert CutsAt(c, tag, ms[k].start, EndOf(c, ms, k));
        PlaceKeepsText(c[..ms[k].start], entry, c[EndOf(c, ms, k)..]);
      case None =>
        var end := EndOfFirst(c, MARKER);
        assert forall j :: 0 <= j < |ms| ==> HeadingsOf(ms)[j].tag == ms[j].heading.tag;
        assert CutsAt(c, tag, end, end);
        PlaceKeepsText(c[..end], entry, c[end..]);
    }
  }

  /**
   Every upsert that succeeds writes the text above its place without the white space at
   its end, an empty row, the heading, an empty row, the shifted notes, and an empty row
   with the text below when that is more than white space. No other character goes or comes.
   */
  lemma UpsertKeepsText(rules: Rules, c: string, tag: string, date: string, notes: string)
    requires UpsertRelease(rules, c, tag, date, notes).Ok?
    ensures NormalizeTag(tag).Some?
    ensures exists top: nat, bottom: nat ::
              && CutsAt(c, NormalizeTag(tag).value, top, bottom)
              && UpsertRelease(rules, c, tag, date, notes).value
                 == RStrip(c[..top]) + "\n\n"
                    + (Spell(Release(tag, date)) + "\n\n" + BodyOf(notes) + "\n" + Under(c[bottom..]))
  {
    hide MatchesOf, CountOf, PutEntry, EntryText, CutsAt, UpsertRelease, NormalizeTag;
    UpsertAccepts(rules, c, tag, date, notes);
    EntryIsHead(Release(tag, date), notes);
    PutKeepsText(c, NormalizeTag(tag).value, Head(Release(tag, date)) + BodyOf(notes));
  }

  // ----- the laws -----

  /** What comes back of notes that went through a changelog. */
  lemma NotesComeBack(rules: Rules, notes: string)
    requires Strip(notes) != "" && ValidateNotes(rules, Strip(notes) + "\n", true).None?
    ensures NotesOf(rules, BodyOf(notes)) == Ok(Strip(notes) + "\n")
            <==> Headings(Outside, SplitLines(Strip(notes)), 6) == 0
  {
    var ns := Strip(notes);
    StripIsStripped(notes);
    TransformStripped(ns, 1);
    TransformStripped(BodyOf(notes), -1);
    StrippedStays(Transform(BodyOf(notes), -1));
    ShiftsAreInverse(ns, 1, -1);
    var back := Transform(BodyOf(notes), -1);
    assert back + "\n" == ns + "\n" ==> back == (back + "\n")[..|back|] == (ns + "\n")[..|ns|] == ns;
  }

  /**
   The round trip: extracting the tag just upserted gives the stripped
   notes and a newline exactly when the notes hold no level 6 heading
   outside fences.
   */
  lemma ExtractAfterUpsert(rules: Rules, c: string, tag: string, date: string, notes: string, i: nat)
    requires GoodUpsert(rules, c, tag, date, notes, i)
    ensures var r := UpsertRelease(rules, c, tag, date, notes).value;
            ExtractReleaseNotes(rules, r, tag) == Ok(Strip(notes) + "\n")
            <==> Headings(Outside, SplitLines(Strip(notes)), 6) == 0
  {
    var r := UpsertRelease(rules, c, tag, date, notes).value;
    var full := NormalizeTag(tag).value;
    var e := Entry(full, date, BodyOf(notes));
    UpsertPutsIn(rules, c, tag, date, notes, i);
    PutKeepsCheck(EntriesOf(c), i, Replaced(c, full), e, EntriesOf(r));
    PutFindsNew(EntriesOf(c), i, Replaced(c, full), e, EntriesOf(r));
    ExtractReadsEntries(rules, r, tag);
    UpsertAccepts(rules, c, tag, date, notes);
    NotesComeBack(rules, notes);
  }

  /** The frame: whatever another tag extracted to before, notes or an error, it extracts to after. */
  lemma OthersExtractUnchanged(rules: Rules, c: string, tag: string, date: string, notes: string, i: nat, other: string)
    requires GoodUpsert(rules, c, tag, date, notes, i)
    requires NormalizeTag(other) != NormalizeTag(tag)
    ensures ExtractReleaseNotes(rules, UpsertRelease(rules, c, tag, date, notes).value, other)
            == ExtractReleaseNotes(rules, c, other)
  {
    var r := UpsertRelease(rules, c, tag, date, notes).value;
    var full := NormalizeTag(tag).value;
    var e := Entry(full, date, BodyOf(notes));
    UpsertPutsIn(rules, c, tag, date, notes, i);
    PutKeepsCheck(EntriesOf(c), i, Replaced(c, full), e, EntriesOf(r));
    ExtractReadsEntries(rules, r, other);
    ExtractReadsEntries(rules, c, other);
    if NormalizeTag(other).Some? {
      PutFindsOthers(EntriesOf(c), i, Replaced(c, full), e, EntriesOf(r), NormalizeTag(other).value);
    }
  }

  // ----- runs -----

  /** One call of the script: its arguments, and the place the entry goes to. */
  datatype Job = Job(tag: string, date: string, notes: string, place: nat)

  /** The changelog after a run of upserts, or the first refusal. */
  function RunUpserts(rules: Rules, c: string, jobs: seq<Job>): Result<string, Error>
    decreases |jobs|
  {
    if jobs == [] then Ok(c)
    else
      match UpsertRelease(rules, c, jobs[0].tag, jobs[0].date, jobs[0].notes)
      case Err(e) => Err(e)
      case Ok(r) => RunUpserts(rules, r, jobs[1..])
  }

  ghost predicate GoodRun(rules: Rules, c: string, jobs: seq<Job>)
    decreases |jobs|
  {
    jobs != [] ==>
      && GoodUpsert(rules, c, jobs[0].tag, jobs[0].date, jobs[0].notes, jobs[0].place)
      && GoodRun(rules, UpsertRelease(rules, c, jobs[0].tag, jobs[0].date, jobs[0].notes).value, jobs[1..])
  }

  /** A tag no job of the run names extracts as before. */
  lemma {:induction false} RunKeepsOthers(rules: Rules, c: string, jobs: seq<Job>, tag: string)
    requires GoodRun(rules, c, jobs)
    requires forall k :: 0 <= k < |jobs| ==> NormalizeTag(jobs[k].tag) != NormalizeTag(tag)
    ensures RunUpserts(rules, c, jobs).Ok?
    ensures ExtractReleaseNotes(rules, RunUpserts(rules, c, jobs).value, tag) == ExtractReleaseNotes(rules, c, tag)
    decreases |jobs|
  {
    hide UpsertRelease, ExtractReleaseNotes, NormalizeTag, PlacedAt, AfterText;
    if jobs != [] {
      var j := jobs[0];
      OthersExtractUnchanged(rules, c, j.tag, j.date, j.notes, j.place, tag);
      RunKeepsOthers(rules, UpsertRelease(rules, c, j.tag, j.date, j.notes).value, jobs[1..], tag);
    }
  }

  /** Extracting a tag gives these notes back exactly when they hold no level 6 heading. */
  ghost predicate ComesBack(rules: Rules, c: string, tag: string, notes: string) {
    ExtractReleaseNotes(rules, c, tag) == Ok(Strip(notes) + "\n")
    <==> Headings(Outside, SplitLines(Strip(notes)), 6) == 0
  }

  lemma FirstUpsertStays(rules: Rules, c: string, jobs: seq<Job>)
    requires GoodRun(rules, c, jobs) && jobs != []
    requires forall m :: 0 <= m < |jobs[1..]| ==> NormalizeTag(jobs[1..][m].tag) != NormalizeTag(jobs[0].tag)
    ensures RunUpserts(rules, c, jobs).Ok?
    ensures ComesBack(rules, RunUpserts(rules, c, jobs).value, jobs[0].tag, jobs[0].notes)
  {
    hide UpsertRelease, ExtractReleaseNotes, NormalizeTag, PlacedAt, AfterText;
    var j := jobs[0];
    var r := UpsertRelease(rules, c, j.tag, j.date, j.notes).value;
    ExtractAfterUpsert(rules, c, j.tag, j.date, j.notes, j.place);
    RunKeepsOthers(rules, r, jobs[1..], j.tag);
  }

  /** Over a whole run, the latest upsert of a tag is the one its extract gives back. */
  lemma {:induction false} LatestUpsertWins(rules: Rules, c: string, jobs: seq<Job>, k: nat)
    requires GoodRun(rules, c, jobs) && k < |jobs|
    requires forall m :: k < m < |jobs| ==> NormalizeTag(jobs[m].tag) != NormalizeTag(jobs[k].tag)
    ensures RunUpserts(rules, c, jobs).Ok?
    ensures ComesBack(rules, RunUpserts(rules, c, jobs).value, jobs[k].tag, jobs[k].notes)
    decreases |jobs|
  {
    hide UpsertRelease, ExtractReleaseNotes, NormalizeTag, PlacedAt, AfterText, ComesBack;
    var later := jobs[1..];
    if k == 0 {
      forall m | 0 <= m < |later| ensures NormalizeTag(later[m].tag) != NormalizeTag(jobs[0].tag) {
        assert later[m] == jobs[m + 1];
      }
      FirstUpsertStays(rules, c, jobs);
    } else {
      var j := jobs[0];
      assert later[k - 1] == jobs[k];
      LatestUpsertWins(rules, UpsertRelease(rules, c, j.tag, j.date, j.notes).value, later, k - 1);
    }
  }
}
