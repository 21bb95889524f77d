/** How often the insertion marker stands in a changelog before and after an upsert. */
module ChangelogMarker {
  import opened Basics
  import opened PyText
  import opened ChangelogHeadings
  import opened ChangelogVersions
  import opened ChangelogBlanks
  import opened Changelog
  import opened ChangelogPlacing

  // ----- counting in pieces -----

  /** No occurrence of `part` lies across the seam. */
  ghost predicate Apart(a: string, b: string, part: string) {
    a == "" || b == "" || a[|a| - 1] !in part || b[0] !in part
  }

  /** No occurrence starts in a and reaches into b. */
  lemma SeamMisses(a: string, b: string, part: string)
    requires Apart(a, b, part) && a != "" && |a| < |part| <= |a + b|
    ensures (a + b)[..|part|] != part
  {
    var whole := (a + b)[..|part|];
    assert whole[|a| - 1] == a[|a| - 1] && whole[|a|] == b[0];
    assert whole[|a| - 1] in whole && whole[|a|] in whole;
  }

  lemma {:induction false} CountApart(a: string, b: string, part: string)
    requires part != "" && Apart(a, b, part)
    ensures CountOf(a + b, part) == CountOf(a, part) + CountOf(b, part)
    decreases |a|
  {
    if a == "" {
      assert a + b == b;
    } else if |part| <= |a + b| {
      if |a| < |part| {
        SeamMisses(a, b, part);
        CountApart(a[1..], b, part);
        PrefixSlices(a, b, 1);
      } else if (a + b)[..|part|] == part {
        PrefixSlices(a, b, |part|);
        CountApart(a[|part|..], b, part);
      } else {
        PrefixSlices(a, b, |part|);
        CountApart(a[1..], b, part);
        PrefixSlices(a, b, 1);
      }
    }
  }

  /** Characters that cannot start the part add nothing in front of a text. */
  lemma {:induction false} CountBehind(w: string, a: string, part: string)
    requires part != "" && part[0] !in w
    ensures CountOf(w + a, part) == CountOf(a, part)
  {
    if w == "" {
      assert w + a == a;
    } else {
      assert w[0] in w;
      assert |part| <= |w + a| ==> (w + a)[..|part|][0] == w[0];
      CountBehind(w[1..], a, part);
      assert (w + a)[1..] == w[1..] + a;
    }
  }

  lemma ShortCountsNone(s: string, part: string)
    requires part != "" && |s| < |part|
    ensures CountOf(s, part) == 0
  {
  }

  /** Characters that cannot end the part add nothing behind a text. */
  lemma {:induction false} CountBefore(a: string, w: string, part: string)
    requires part != "" && part[|part| - 1] !in w
    ensures CountOf(a + w, part) == CountOf(a, part)
    decreases |a| + |w|
  {
    if |part| <= |a + w| {
      if |a| < |part| {
        assert (a + w)[..|part|] != part by {
          assert (a + w)[..|part|][|part| - 1] == w[|part| - 1 - |a|];
        }
        if a == "" {
          CountBefore(a, w[1..], part);
          assert (a + w)[1..] == a + w[1..];
        } else {
          CountBefore(a[1..], w, part);
          PrefixSlices(a, w, 1);
        }
      } else {
        PrefixSlices(a, w, |part|);
        PrefixSlices(a, w, 1);
        CountBefore(if a[..|part|] == part then a[|part|..] else a[1..], w, part);
      }
    }
  }

  lemma CountNone(s: string, part: string)
    requires part != "" && part[0] !in s
    ensures CountOf(s, part) == 0
  {
    CountBehind(s, "", part);
    assert s + "" == s;
  }

  // ----- counting places -----

  ghost predicate StandsAt(s: string, part: string, p: nat) {
    p + |part| <= |s| && s[p..p + |part|] == part
  }

  /** Where a part stands in a text. */
  ghost function Places(s: string, part: string): set<nat> {
    set p: nat | p <= |s| && StandsAt(s, part, p)
  }

  ghost function MovedPlaces(ps: set<nat>, shift: nat): set<nat> {
    set p | p in ps :: p + shift
  }

  lemma {:induction false} MovedSize(ps: set<nat>, shift: nat)
    ensures |MovedPlaces(ps, shift)| == |ps|
    decreases |ps|
  {
    if ps != {} {
      var p :| p in ps;
      MovedSize(ps - {p}, shift);
      forall q | q in MovedPlaces(ps, shift) ensures q in MovedPlaces(ps - {p}, shift) + {p + shift} {
        var r :| r in ps && r + shift == q;
        assert r != p ==> r in ps - {p};
      }
      assert MovedPlaces(ps, shift) == MovedPlaces(ps - {p}, shift) + {p + shift};
    }
  }

  lemma PlaceMoves(s: string, part: string, shift: nat, p: nat)
    requires shift <= p && shift <= |s|
    ensures p in Places(s, part) <==> p - shift in Places(s[shift..], part)
  {
    if p + |part| <= |s| {
      assert s[shift..][p - shift..p - shift + |part|] == s[p..p + |part|];
    }
  }

  /** The places from `shift` on are those of the text from there on. */
  lemma PlacesFrom(s: string, part: string, shift: nat)
    requires shift <= |s|
    ensures MovedPlaces(Places(s[shift..], part), shift) == set p | p in Places(s, part) && shift <= p
  {
    forall p: nat ensures p in MovedPlaces(Places(s[shift..], part), shift) <==> p in Places(s, part) && shift <= p {
      if shift <= p {
        PlaceMoves(s, part, shift, p);
        var later := Places(s[shift..], part);
        assert p - shift in later ==> (p - shift) + shift in MovedPlaces(later, shift);
      }
    }
  }

  /** A part that starts with a character it holds nowhere else cannot overlap with itself. */
  lemma NoOverlap(s: string, part: string, p: nat)
    requires part != "" && part[0] !in part[1..] && |part| <= |s| && s[..|part|] == part && 0 < p < |part|
    ensures p !in Places(s, part)
  {
    assert s[p] == s[..|part|][p] && part[p] == part[1..][p - 1];
    if p + |part| <= |s| {
      assert s[p..p + |part|][0] == s[p];
    }
  }

  /** The count is the number of places. */
  lemma {:induction false} CountIsPlaces(s: string, part: string)
    requires part != "" && part[0] !in part[1..]
    ensures CountOf(s, part) == |Places(s, part)|
    decreases |s|
  {
    if |s| < |part| {
      assert Places(s, part) == {};
    } else if s[..|part|] == part {
      var shift := |part|;
      CountIsPlaces(s[shift..], part);
      PlacesFrom(s, part, shift);
      MovedSize(Places(s[shift..], part), shift);
      forall p | 0 < p < shift ensures p !in Places(s, part) {
        NoOverlap(s, part, p);
      }
      assert Places(s, part) == {0} + MovedPlaces(Places(s[shift..], part), shift);
    } else {
      CountIsPlaces(s[1..], part);
      PlacesFrom(s, part, 1);
      MovedSize(Places(s[1..], part), 1);
      assert Places(s, part) == MovedPlaces(Places(s[1..], part), 1);
    }
  }

  /** The end of the first one is found. */
  lemma {:induction false} EndOfFirstIsFirst(s: string, part: string)
    requires part != "" && CountOf(s, part) > 0
    ensures EndOfFirst(s, part) >= |part| && StandsAt(s, part, EndOfFirst(s, part) - |part|)
    ensures forall p :: p in Places(s, part) ==> EndOfFirst(s, part) - |part| <= p
    decreases |s|
  {
    if s[..|part|] != part {
      EndOfFirstIsFirst(s[1..], part);
      FirstFrom(s, part, EndOfFirst(s[1..], part) - |part|);
    }
  }

  lemma FirstFrom(s: string, part: string, first: nat)
    requires part != "" && |part| <= |s| && s[..|part|] != part
    requires forall p :: p in Places(s[1..], part) ==> first <= p
    ensures forall p :: p in Places(s, part) ==> first + 1 <= p
  {
    forall p | p in Places(s, part) ensures first + 1 <= p {
      if p > 0 {
        PlaceMoves(s, part, 1, p);
      }
    }
  }

  // ----- the marker -----

  /** What the laws need to know of the marker: one angle bracket at each end, no break and no hash. */
  ghost predicate MarkerLike(m: string) {
    && m != "" && m[0] == '<' && m[|m| - 1] == '>' && '#' !in m
    && forall i :: 0 <= i < |m| ==> !IsBreak(m[i])
  }

  lemma TheMarker()
    ensures MarkerLike(MARKER)
  {
  }

  lemma NotInMarker(m: string, x: char)
    requires MarkerLike(m) && (IsBreak(x) || x == '#')
    ensures x !in m
  {
  }

  lemma BlankLacks(w: string, x: char)
    requires Blank(w) && !IsSpace(x)
    ensures x !in w
  {
  }

  lemma CountStripped(s: string, m: string)
    requires MarkerLike(m)
    ensures CountOf(RStrip(s), m) == CountOf(s, m) && CountOf(Strip(s), m) == CountOf(s, m)
  {
    hide CountOf, RStrip, LStrip;
    var w := RStripSplits(s);
    BlankLacks(w, m[|m| - 1]);
    CountBefore(RStrip(s), w, m);
    var lead := LStripSplits(s);
    BlankLacks(lead, m[0]);
    CountBehind(lead, LStrip(s), m);
    var trail := RStripSplits(LStrip(s));
    BlankLacks(trail, m[|m| - 1]);
    CountBefore(RStrip(LStrip(s)), trail, m);
  }

  // ----- shifting headings moves no marker -----

  lemma CountHash(line: string, m: string)
    requires MarkerLike(m)
    ensures CountOf("#" + line, m) == CountOf(line, m)
  {
    NotInMarker(m, '#');
    CountApart("#", line, m);
    CountNone("#", m);
  }

  lemma CountShiftedLine(line: string, delta: int, m: string)
    requires MarkerLike(m)
    ensures CountOf(ShiftLine(line, delta), m) == CountOf(line, m)
  {
    hide CountOf;
    var moved := ShiftLine(line, delta);
    ShiftedLine(Outside, line, delta);
    if moved != line {
      if delta < 0 {
        assert line == "#" + moved;
        CountHash(moved, m);
      } else {
        CountHash(line, m);
      }
    }
  }

  /** Lines that end in a break, the last one perhaps not. */
  ghost predicate Ended(lines: seq<string>) {
    forall i :: 0 <= i < |lines| ==> lines[i] != "" && (i + 1 < |lines| ==> IsBreak(lines[i][|lines[i]| - 1]))
  }

  lemma {:induction false} SplitLinesEnd(s: string)
    ensures Ended(SplitLines(s))
  {
    if s != "" {
      var n := LineLength(s);
      SplitLinesEnd(s[n..]);
      if n < |s| {
        LineEndsInBreak(s);
        assert s[..n][n - 1] == s[n - 1];
      }
      var lines := SplitLines(s);
      assert lines[0] == s[..n] && lines[1..] == SplitLines(s[n..]);
      assert forall i :: 1 <= i < |lines| ==> lines[i] == lines[1..][i - 1];
    }
  }

  lemma {:induction false} CountShifted(f: Fence, lines: seq<string>, delta: int, m: string)
    requires MarkerLike(m) && Ended(lines)
    ensures CountOf(Concat(Shifted(f, lines, delta)), m) == CountOf(Concat(lines), m)
    decreases |lines|
  {
    hide CountOf, ShiftLine, Fenced, Step;
    if lines != [] {
      var line, rest := lines[0], lines[1..];
      var moved := Shifted(f, lines, delta);
      var now := if Fenced(f, line) then line else ShiftLine(line, delta);
      CountShifted(Step(f, line), rest, delta, m);
      CountShiftedLine(line, delta, m);
      ShiftedLineEnds(line, delta);
      assert moved[0] == now && moved[1..] == Shifted(Step(f, line), rest, delta);
      SeamAtBreak(line, Concat(rest), rest, m);
      SeamAtBreak(now, Concat(moved[1..]), rest, m);
      ShiftedNone(Step(f, line), rest, delta);
      CountApart(line, Concat(rest), m);
      CountApart(now, Concat(moved[1..]), m);
    }
  }

  lemma ShiftedNone(f: Fence, lines: seq<string>, delta: int)
    ensures lines == [] ==> Concat(Shifted(f, lines, delta)) == "" && Concat(lines) == ""
  {
  }

  lemma SeamAtBreak(line: string, tail: string, rest: seq<string>, m: string)
    requires MarkerLike(m) && line != "" && (rest != [] ==> IsBreak(line[|line| - 1]))
    ensures rest != [] ==> Apart(line, tail, m)
  {
    if rest != [] {
      NotInMarker(m, line[|line| - 1]);
    }
  }

  lemma CountTransform(s: string, delta: int, m: string)
    requires MarkerLike(m)
    ensures CountOf(Transform(s, delta), m) == CountOf(s, m)
  {
    hide CountOf;
    SplitLinesEnd(s);
    SplitLinesSpell(s);
    CountShifted(Outside, SplitLines(s), delta, m);
  }

  // ----- the marker in what an upsert writes -----

  lemma CountLine(a: string, b: string, m: string)
    requires MarkerLike(m)
    ensures CountOf(a + "\n" + b, m) == CountOf(a, m) + CountOf(b, m)
  {
    hide CountOf;
    NotInMarker(m, '\n');
    CountApart(a + "\n", b, m);
    CountApart(a, "\n", m);
    CountNone("\n", m);
  }

  lemma CountSpelt(h: Heading, m: string)
    requires IsTag(h.tag) && DateShape(h.date) && MarkerLike(m)
    ensures CountOf(Spell(h), m) == 0
  {
    NoBracket(h);
    CountNone(Spell(h), m);
  }

  lemma NoBracket(h: Heading)
    requires IsTag(h.tag) && DateShape(h.date)
    ensures '<' !in Spell(h)
  {
    TagHasTagChars(h.tag);
    assert forall i :: 0 <= i < |h.tag| ==> TagChar(h.tag[i]);
    assert forall i :: 0 <= i < 10 ==> Digit(h.date[i]) || h.date[i] == '-';
    assert '<' !in h.tag && '<' !in h.date && '<' !in Opening() && '<' !in Dash();
  }

  lemma CountTail(gap: string, below: string, m: string)
    requires MarkerLike(m) && Blank(gap)
    ensures CountOf(Tail(gap, below), m) == CountOf(below, m)
  {
    hide CountOf, RStrip;
    if below != "" {
      var rest := RStrip(below);
      CountStripped(below, m);
      BlankConcat("\n", gap);
      BlankLacks("\n" + gap, m[0]);
      CountBehind("\n" + gap, rest, m);
      NotInMarker(m, '\n');
      CountBefore("\n" + gap + rest, "\n", m);
    } else {
      ShortCountsNone("", m);
    }
  }

  lemma CountEntry(h: Heading, body: string, m: string)
    requires IsTag(h.tag) && DateShape(h.date) && MarkerLike(m)
    ensures CountOf(Head(h) + body, m) == CountOf(body, m)
  {
    hide CountOf, Spell;
    CountSpelt(h, m);
    CountLine(Spell(h), "", m);
    ShortCountsNone("", m);
    assert Spell(h) + "\n" + "" == Spell(h) + "\n";
    assert Head(h) + body == (Spell(h) + "\n") + "\n" + body;
    CountLine(Spell(h) + "\n", body, m);
  }

  /** A written changelog holds the markers of what stands above, of the body, and of what stands below. */
  lemma CountWritten(above: string, h: Heading, body: string, gap: string, below: string, m: string)
    requires IsTag(h.tag) && DateShape(h.date) && MarkerLike(m) && Blank(gap)
    ensures CountOf(Written(above, h, body, gap, below), m)
            == CountOf(above, m) + CountOf(body, m) + CountOf(below, m)
  {
    hide CountOf, RStrip, Head, Tail;
    CountStripped(above, m);
    CountEntry(h, body, m);
    CountTail(gap, below, m);
    var top, entry, tail := RStrip(above), Head(h) + body, Tail(gap, below);
    CountLine(top, "", m);
    ShortCountsNone("", m);
    assert top + "\n" + "" == top + "\n";
    CountLine(top + "\n", entry + "\n" + tail, m);
    assert Written(above, h, body, gap, below) == (top + "\n") + "\n" + (entry + "\n" + tail);
    CountLine(entry, tail, m);
  }
}
