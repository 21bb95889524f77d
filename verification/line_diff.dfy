/**
 The line diff of `agent_diff.rs`: splitting a text into lines, aligning two
 line lists through a longest-common-subsequence table, and numbering the
 resulting edit script on both sides.
 */
module LineDiff {
  import opened Basics

  const LCS_MAX_CELLS: nat := 250_000

  datatype Kind = Context | Added | Removed

  /** One step of an edit script: a line kept, added or removed. */
  datatype Edit = Edit(kind: Kind, text: string)

  /** An edit together with its line number on each side that has the line. */
  datatype Op = Op(oldNo: Option<nat>, newNo: Option<nat>, edit: Edit)

  // ----- splitting a text into lines -----

  function Split(text: string): (parts: seq<string>)
    ensures parts != []
  {
    if text == "" then [""]
    else if text[0] == '\n' then [""] + Split(text[1..])
    else
      var rest := Split(text[1..]);
      [[text[0]] + rest[0]] + rest[1..]
  }

  /** The lines of a text; a final newline does not open one more line. */
  function Lines(text: string): seq<string> {
    if text == "" then []
    else
      var parts := Split(text);
      if parts[|parts| - 1] == "" then parts[..|parts| - 1] else parts
  }

  /** The text in which every line is followed by a newline. */
  function Unlines(lines: seq<string>): string {
    if lines == [] then "" else lines[0] + "\n" + Unlines(lines[1..])
  }

  ghost predicate NewlineFree(lines: seq<string>) {
    forall i :: 0 <= i < |lines| ==> '\n' !in lines[i]
  }

  lemma UnlinesCons(line: string, rest: seq<string>)
    ensures Unlines([line] + rest) == line + "\n" + Unlines(rest)
  {
    assert ([line] + rest)[1..] == rest;
  }

  lemma UnlinesWidens(c: char, lines: seq<string>)
    requires lines != []
    ensures Unlines([[c] + lines[0]] + lines[1..]) == [c] + Unlines(lines)
  {
    UnlinesCons([c] + lines[0], lines[1..]);
    Regroup([c], lines[0], "\n", Unlines(lines[1..]));
  }

  lemma Regroup(a: string, b: string, c: string, d: string)
    ensures (a + b) + c + d == a + (b + c + d)
  {
  }

  lemma {:induction false} SplitSpells(text: string)
    ensures Unlines(Split(text)) == text + "\n"
    ensures NewlineFree(Split(text))
  {
    if text == "" {
      UnlinesCons("", []);
      assert [""] + [] == [""];
    } else {
      SplitSpells(text[1..]);
      var rest := Split(text[1..]);
      if text[0] == '\n' {
        UnlinesCons("", rest);
      } else {
        UnlinesWidens(text[0], rest);
      }
      assert text == [text[0]] + text[1..];
    }
  }

  lemma {:induction false} UnlinesSnoc(lines: seq<string>, last: string)
    ensures Unlines(lines + [last]) == Unlines(lines) + last + "\n"
  {
    if lines == [] {
      assert Unlines([last]) == last + "\n" + Unlines([]);
    } else {
      UnlinesSnoc(lines[1..], last);
      assert (lines + [last])[1..] == lines[1..] + [last];
    }
  }

  lemma {:induction false} SplitLast(text: string)
    requires text != ""
    ensures Split(text)[|Split(text)| - 1] == "" <==> text[|text| - 1] == '\n'
  {
    var rest := Split(text[1..]);
    if |text| == 1 {
      assert text[1..] == "" && rest == [""];
    } else {
      SplitLast(text[1..]);
      assert text[1..][|text| - 2] == text[|text| - 1];
    }
    if text[0] != '\n' {
      WidenedLast(text[0], rest);
    }
  }

  lemma WidenedLast(c: char, rest: seq<string>)
    requires rest != []
    ensures var wide := [[c] + rest[0]] + rest[1..];
            && |wide| == |rest|
            && wide[|wide| - 1] == (if |rest| == 1 then [c] + rest[0] else rest[|rest| - 1])
  {
  }

  /** The lines spell the text, up to the missing final newline. */
  lemma LinesSpell(text: string)
    ensures NewlineFree(Lines(text))
    ensures Unlines(Lines(text)) ==
            if text == "" || text[|text| - 1] == '\n' then text else text + "\n"
  {
    if text != "" {
      SplitSpells(text);
      SplitLast(text);
      var parts := Split(text);
      if parts[|parts| - 1] == "" {
        var front := parts[..|parts| - 1];
        assert parts == front + [""];
        UnlinesSnoc(front, "");
        assert Unlines(front) + "\n" == text + "\n";
        assert (Unlines(front) + "\n")[..|text|] == (text + "\n")[..|text|];
      }
    }
  }

  lemma {:induction false} SplitHead(line: string, rest: string)
    requires '\n' !in line
    ensures Split(line + "\n" + rest) == [line] + Split(rest)
  {
    var text := line + "\n" + rest;
    if line == "" {
      assert text[1..] == rest;
    } else {
      assert text[1..] == line[1..] + "\n" + rest;
      SplitHead(line[1..], rest);
      assert Split(text)[0] == line;
    }
  }

  lemma {:induction false} SplitUnlines(lines: seq<string>)
    requires NewlineFree(lines)
    ensures Split(Unlines(lines)) == lines + [""]
  {
    if lines != [] {
      SplitUnlines(lines[1..]);
      SplitHead(lines[0], Unlines(lines[1..]));
    }
  }

  /** Every newline-free list of lines is the line list of its own text. */
  lemma LinesUnlines(lines: seq<string>)
    requires NewlineFree(lines)
    ensures Lines(Unlines(lines)) == lines
  {
    SplitUnlines(lines);
    if lines != [] {
      assert Unlines(lines) != "";
    }
  }

  // ----- scripts and the two texts they relate -----

  /** The lines of the edits whose kind is among `kinds`, in order. */
  function Texts(script: seq<Edit>, kinds: set<Kind>): seq<string> {
    if script == [] then []
    else if script[0].kind in kinds then [script[0].text] + Texts(script[1..], kinds)
    else Texts(script[1..], kinds)
  }

  function OldSide(script: seq<Edit>): seq<string> {
    Texts(script, {Context, Removed})
  }

  function NewSide(script: seq<Edit>): seq<string> {
    Texts(script, {Context, Added})
  }

  /** The lines a script keeps. */
  function Kept(script: seq<Edit>): seq<string> {
    Texts(script, {Context})
  }

  function CountKind(script: seq<Edit>, kind: Kind): nat {
    |Texts(script, {kind})|
  }

  lemma {:induction false} TextsConcat(s: seq<Edit>, t: seq<Edit>, kinds: set<Kind>)
    ensures Texts(s + t, kinds) == Texts(s, kinds) + Texts(t, kinds)
  {
    if s == [] {
      assert s + t == t;
    } else {
      TextsConcat(s[1..], t, kinds);
      assert (s + t)[1..] == s[1..] + t;
    }
  }

  lemma TextsOfOne(e: Edit, kinds: set<Kind>)
    ensures Texts([e], kinds) == if e.kind in kinds then [e.text] else []
  {
    assert [e][1..] == [];
  }

  lemma SidesConcat(s: seq<Edit>, t: seq<Edit>)
    ensures OldSide(s + t) == OldSide(s) + OldSide(t)
    ensures NewSide(s + t) == NewSide(s) + NewSide(t)
    ensures Kept(s + t) == Kept(s) + Kept(t)
  {
    TextsConcat(s, t, {Context, Removed});
    TextsConcat(s, t, {Context, Added});
    TextsConcat(s, t, {Context});
  }

  /** A script accounts for every line of either side exactly once. */
  lemma {:induction false} ScriptBalance(s: seq<Edit>)
    ensures |OldSide(s)| == |Kept(s)| + CountKind(s, Removed)
    ensures |NewSide(s)| == |Kept(s)| + CountKind(s, Added)
  {
    if s != [] {
      ScriptBalance(s[1..]);
    }
  }

  function Tag(kind: Kind, lines: seq<string>): seq<Edit> {
    seq(|lines|, i requires 0 <= i < |lines| => Edit(kind, lines[i]))
  }

  lemma {:induction false} TextsOfTag(kind: Kind, lines: seq<string>, kinds: set<Kind>)
    ensures Texts(Tag(kind, lines), kinds) == if kind in kinds then lines else []
  {
    if lines != [] {
      TextsOfTag(kind, lines[1..], kinds);
      assert Tag(kind, lines)[1..] == Tag(kind, lines[1..]);
      assert lines == [lines[0]] + lines[1..];
    }
  }

  lemma TagSides(kind: Kind, lines: seq<string>)
    ensures OldSide(Tag(kind, lines)) == if kind.Added? then [] else lines
    ensures NewSide(Tag(kind, lines)) == if kind.Removed? then [] else lines
    ensures Kept(Tag(kind, lines)) == if kind.Context? then lines else []
  {
    TextsOfTag(kind, lines, {Context, Removed});
    TextsOfTag(kind, lines, {Context, Added});
    TextsOfTag(kind, lines, {Context});
  }

  // ----- longest common subsequences -----

  /** `s` arises from `a` by leaving out lines. */
  ghost predicate Subsequence(s: seq<string>, a: seq<string>) {
    s == [] ||
    (a != [] && ((s[0] == a[0] && Subsequence(s[1..], a[1..])) || Subsequence(s, a[1..])))
  }

  /** The recurrence the table is filled with. */
  ghost function Lcs(a: seq<string>, b: seq<string>): nat
    decreases |a| + |b|
  {
    if a == [] || b == [] then 0
    else if a[0] == b[0] then 1 + Lcs(a[1..], b[1..])
    else Max(Lcs(a[1..], b), Lcs(a, b[1..]))
  }

  lemma {:induction false} SubsequenceTail(s: seq<string>, a: seq<string>)
    requires s != [] && Subsequence(s, a)
    ensures a != [] && Subsequence(s[1..], a[1..])
  {
    if !(s[0] == a[0] && Subsequence(s[1..], a[1..])) {
      SubsequenceTail(s, a[1..]);
    }
  }

  /** No common subsequence is longer than `Lcs`. */
  lemma {:induction false} LcsUpper(s: seq<string>, a: seq<string>, b: seq<string>)
    requires Subsequence(s, a) && Subsequence(s, b)
    ensures |s| <= Lcs(a, b)
    decreases |a| + |b|
  {
    if s != [] {
      if a[0] == b[0] {
        SubsequenceTail(s, a);
        SubsequenceTail(s, b);
        LcsUpper(s[1..], a[1..], b[1..]);
      } else if s[0] != a[0] {
        LcsUpper(s, a[1..], b);
      } else {
        LcsUpper(s, a, b[1..]);
      }
    }
  }

  /** What a script keeps is common to both of its sides. */
  lemma {:induction false} KeptIsCommon(s: seq<Edit>)
    ensures Subsequence(Kept(s), OldSide(s))
    ensures Subsequence(Kept(s), NewSide(s))
  {
    if s != [] {
      KeptIsCommon(s[1..]);
      assert OldSide(s) == (if s[0].kind.Added? then [] else [s[0].text]) + OldSide(s[1..]);
      assert s[0].kind.Added? || OldSide(s)[1..] == OldSide(s[1..]);
      assert s[0].kind.Removed? || NewSide(s)[1..] == NewSide(s[1..]);
      assert !s[0].kind.Context? || Kept(s)[1..] == Kept(s[1..]);
      assert s[0].kind.Context? || Kept(s) == Kept(s[1..]);
      assert !s[0].kind.Added? || OldSide(s) == OldSide(s[1..]);
      assert !s[0].kind.Removed? || NewSide(s) == NewSide(s[1..]);
    }
  }

  lemma {:induction false} LcsCommonPrefix(p: seq<string>, a: seq<string>, b: seq<string>)
    ensures Lcs(p + a, p + b) == |p| + Lcs(a, b)
  {
    if p == [] {
      assert p + a == a && p + b == b;
    } else {
      LcsCommonPrefix(p[1..], a, b);
      assert (p + a)[1..] == p[1..] + a && (p + b)[1..] == p[1..] + b;
    }
  }

  lemma {:induction false} LcsSameLast(a: seq<string>, b: seq<string>, x: string)
    ensures Lcs(a + [x], b + [x]) == Lcs(a, b) + 1
    decreases |a| + |b|
  {
    assert a != [] ==> (a + [x])[1..] == a[1..] + [x];
    assert b != [] ==> (b + [x])[1..] == b[1..] + [x];
    if a == [] && b == [] {
    } else if a != [] && b != [] {
      if a[0] == b[0] {
        LcsSameLast(a[1..], b[1..], x);
      } else {
        LcsSameLast(a[1..], b, x);
        LcsSameLast(a, b[1..], x);
      }
    } else if a == [] {
      LcsSameLast(a, b[1..], x);
      assert (a + [x])[1..] == [];
    } else {
      LcsSameLast(a[1..], b, x);
      assert (b + [x])[1..] == [];
    }
  }

  lemma {:induction false} LcsCommonSuffix(a: seq<string>, b: seq<string>, s: seq<string>)
    ensures Lcs(a + s, b + s) == Lcs(a, b) + |s|
    decreases |s|
  {
    if s == [] {
      assert a + s == a && b + s == b;
    } else {
      LcsSameLast(a, b, s[0]);
      LcsCommonSuffix(a + [s[0]], b + [s[0]], s[1..]);
      assert a + [s[0]] + s[1..] == a + s && b + [s[0]] + s[1..] == b + s;
    }
  }

  // ----- aligning the middles -----

  /** The script read off the table: keep equal lines, else drop the side that costs least. */
  ghost function Walk(a: seq<string>, b: seq<string>): seq<Edit>
    decreases |a| + |b|
  {
    if a == [] || b == [] then Tag(Removed, a) + Tag(Added, b)
    else if a[0] == b[0] then [Edit(Context, a[0])] + Walk(a[1..], b[1..])
    else if Lcs(a[1..], b) >= Lcs(a, b[1..]) then [Edit(Removed, a[0])] + Walk(a[1..], b)
    else [Edit(Added, b[0])] + Walk(a, b[1..])
  }

  lemma {:induction false} WalkSpells(a: seq<string>, b: seq<string>)
    ensures OldSide(Walk(a, b)) == a
    ensures NewSide(Walk(a, b)) == b
    ensures |Kept(Walk(a, b))| == Lcs(a, b)
    decreases |a| + |b|
  {
    if a == [] || b == [] {
      TagSides(Removed, a);
      TagSides(Added, b);
      SidesConcat(Tag(Removed, a), Tag(Added, b));
    } else if a[0] == b[0] {
      WalkSpells(a[1..], b[1..]);
      assert Walk(a, b)[1..] == Walk(a[1..], b[1..]);
    } else if Lcs(a[1..], b) >= Lcs(a, b[1..]) {
      WalkSpells(a[1..], b);
      assert Walk(a, b)[1..] == Walk(a[1..], b);
    } else {
      WalkSpells(a, b[1..]);
      assert Walk(a, b)[1..] == Walk(a, b[1..]);
    }
  }

  /** Whether the table is small enough to be filled. */
  predicate TableFits(a: seq<string>, b: seq<string>) {
    |a| * |b| <= LCS_MAX_CELLS
  }

  ghost function Align(a: seq<string>, b: seq<string>): seq<Edit> {
    if TableFits(a, b) then Walk(a, b) else Tag(Removed, a) + Tag(Added, b)
  }

  lemma AlignSpells(a: seq<string>, b: seq<string>)
    ensures OldSide(Align(a, b)) == a
    ensures NewSide(Align(a, b)) == b
    ensures |Kept(Align(a, b))| == if TableFits(a, b) then Lcs(a, b) else 0
  {
    WalkSpells(a, b);
    TagSides(Removed, a);
    TagSides(Added, b);
    SidesConcat(Tag(Removed, a), Tag(Added, b));
  }

  // ----- the order of a change -----

  /** No added line stands directly in front of a removed one. */
  ghost predicate Ordered(s: seq<Edit>) {
    forall i :: 0 < i < |s| ==> !(s[i - 1].kind.Added? && s[i].kind.Removed?)
  }

  lemma {:induction false} SubsequenceOfTail(s: seq<string>, a: seq<string>)
    requires a != [] && Subsequence(s, a[1..])
    ensures Subsequence(s, a)
  {
  }

  /** With a line less on the new side there is no more to keep. */
  lemma LcsOfTail(a: seq<string>, b: seq<string>)
    requires b != []
    ensures Lcs(a, b[1..]) <= Lcs(a, b)
  {
    var w := Walk(a, b[1..]);
    WalkSpells(a, b[1..]);
    KeptIsCommon(w);
    SubsequenceOfTail(Kept(w), b);
    LcsUpper(Kept(w), a, b);
  }

  /**
   Once the walk added a line it removes none before the next one it keeps: skipping a
   new line keeps the table larger on the new side.
   */
  lemma NoRemovalNext(a: seq<string>, b: seq<string>)
    requires a != [] && b != [] && Lcs(a[1..], b) < Lcs(a, b[1..])
    ensures var next := Walk(a, b[1..]); next != [] && !next[0].kind.Removed?
  {
    LcsOfTail(a[1..], b);
    assert b[1..] != [];
  }

  lemma ConsOrdered(e: Edit, s: seq<Edit>)
    requires Ordered(s) && (e.kind.Added? && s != [] ==> !s[0].kind.Removed?)
    ensures Ordered([e] + s)
  {
    var all := [e] + s;
    assert forall i :: 0 < i < |all| ==> all[i] == s[i - 1];
  }

  lemma BlockOrdered(a: seq<string>, b: seq<string>)
    ensures Ordered(Tag(Removed, a) + Tag(Added, b))
  {
  }

  lemma {:induction false} WalkOrdered(a: seq<string>, b: seq<string>)
    ensures Ordered(Walk(a, b))
    decreases |a| + |b|
  {
    hide Ordered;
    if a == [] || b == [] {
      BlockOrdered(a, b);
    } else if a[0] == b[0] {
      WalkOrdered(a[1..], b[1..]);
      ConsOrdered(Edit(Context, a[0]), Walk(a[1..], b[1..]));
    } else if Lcs(a[1..], b) >= Lcs(a, b[1..]) {
      WalkOrdered(a[1..], b);
      ConsOrdered(Edit(Removed, a[0]), Walk(a[1..], b));
    } else {
      WalkOrdered(a, b[1..]);
      NoRemovalNext(a, b);
      ConsOrdered(Edit(Added, b[0]), Walk(a, b[1..]));
    }
  }

  lemma AlignOrdered(a: seq<string>, b: seq<string>)
    ensures Ordered(Align(a, b))
  {
    hide Ordered;
    WalkOrdered(a, b);
    BlockOrdered(a, b);
  }

  // ----- the choice among the longest -----

  /**
   The choice of the first edit, where a and b are left: equal lines are kept, and where
   the next lines differ the old one is removed exactly when that loses nothing.
   */
  ghost predicate FirstChoice(e: Edit, a: seq<string>, b: seq<string>) {
    a != [] && b != [] ==>
      && (a[0] == b[0] ==> e.kind.Context?)
      && (a[0] != b[0] ==> (e.kind.Removed? <==> Lcs(a[1..], b) == Lcs(a, b)))
  }

  ghost predicate ChoosesFirst(s: seq<Edit>) {
    forall k :: 0 <= k < |s| ==> FirstChoice(s[k], OldSide(s[k..]), NewSide(s[k..]))
  }

  lemma ChoosesRest(s: seq<Edit>)
    requires s != []
    ensures ChoosesFirst(s) <==> FirstChoice(s[0], OldSide(s), NewSide(s)) && ChoosesFirst(s[1..])
  {
    hide FirstChoice, OldSide, NewSide;
    var rest := s[1..];
    assert s[0..] == s;
    assert forall k :: 0 <= k < |rest| ==> rest[k] == s[k + 1] && rest[k..] == s[k + 1..];
    assert forall k :: 1 <= k < |s| ==> s[k] == rest[k - 1] && s[k..] == rest[k - 1..];
  }

  lemma SidesOfFirst(s: seq<Edit>)
    requires s != []
    ensures var e, rest := s[0], s[1..];
            && OldSide(s) == (if e.kind.Added? then OldSide(rest) else [e.text] + OldSide(rest))
            && NewSide(s) == (if e.kind.Removed? then NewSide(rest) else [e.text] + NewSide(rest))
  {
  }

  lemma WalkOneSide(a: seq<string>, b: seq<string>)
    requires a == [] || b == []
    ensures a != [] ==> Walk(a, b) == [Edit(Removed, a[0])] + Walk(a[1..], b)
    ensures b != [] ==> Walk(a, b) == [Edit(Added, b[0])] + Walk(a, b[1..])
    ensures a == [] && b == [] ==> Walk(a, b) == []
  {
  }

  /** The first edit of a script is that of the walk exactly when it is the first choice. */
  lemma FirstIsWalks(s: seq<Edit>)
    requires s != []
    ensures var e, rest, a, b := s[0], s[1..], OldSide(s), NewSide(s);
            s == Walk(a, b) <==> FirstChoice(e, a, b) && rest == Walk(OldSide(rest), NewSide(rest))
  {
    hide OldSide, NewSide;
    var e, rest, a, b := s[0], s[1..], OldSide(s), NewSide(s);
    SidesOfFirst(s);
    WalkSpells(OldSide(rest), NewSide(rest));
    if a == [] || b == [] {
      WalkOneSide(a, b);
    }
    assert e == Edit(e.kind, e.text) && s == [e] + rest;
  }

  /** Among the scripts of two sides the walk is the one that chooses first, everywhere, and the only one. */
  lemma {:induction false} WalkChoosesFirst(s: seq<Edit>)
    ensures ChoosesFirst(s) <==> s == Walk(OldSide(s), NewSide(s))
  {
    hide ChoosesFirst, FirstChoice, OldSide, NewSide;
    if s == [] {
      NothingToChoose();
    } else {
      WalkChoosesFirst(s[1..]);
      ChoosesRest(s);
      FirstIsWalks(s);
    }
  }

  lemma NothingToChoose()
    ensures ChoosesFirst([]) && Walk(OldSide([]), NewSide([])) == []
  {
  }

  lemma TagCons(kind: Kind, x: string, lines: seq<string>)
    ensures Tag(kind, [x] + lines) == [Edit(kind, x)] + Tag(kind, lines)
  {
  }

  lemma OrderedRest(s: seq<Edit>)
    requires s != [] && Ordered(s)
    ensures Ordered(s[1..]) && (s[0].kind.Added? && |s| > 1 ==> !s[1].kind.Removed?)
  {
  }

  /** Without a kept line there is one ordered script of two sides. */
  lemma {:induction false} BlockIsOrdered(s: seq<Edit>)
    requires Kept(s) == [] && Ordered(s)
    ensures s == Tag(Removed, OldSide(s)) + Tag(Added, NewSide(s))
  {
    hide Ordered;
    if s != [] {
      var e, rest := s[0], s[1..];
      OrderedRest(s);
      BlockIsOrdered(rest);
      assert OldSide(rest) != [] ==> rest[0].kind.Removed?;
      SidesOfFirst(s);
      TagCons(e.kind, e.text, if e.kind.Removed? then OldSide(rest) else NewSide(rest));
      assert s == [e] + rest && e == Edit(e.kind, e.text);
    }
  }

  /**
   Of all scripts of two middles that fit the table the alignment is the one and only
   that keeps equal next lines and else removes the old one exactly when that loses
   nothing; middles that do not fit are removed and added as a whole.
   */
  lemma AlignChoosesFirst(a: seq<string>, b: seq<string>, s: seq<Edit>)
    requires OldSide(s) == a && NewSide(s) == b
    ensures TableFits(a, b) ==> (s == Align(a, b) <==> ChoosesFirst(s))
    ensures !TableFits(a, b) ==> (s == Align(a, b) <==> Kept(s) == [] && Ordered(s))
  {
    hide ChoosesFirst, OldSide, NewSide, Kept, Ordered;
    WalkChoosesFirst(s);
    AlignSpells(a, b);
    AlignOrdered(a, b);
    if Kept(s) == [] && Ordered(s) {
      BlockIsOrdered(s);
    }
  }

  /** Position of cell (i, j) in the row-major table with rows of width `w`. */
  function Cell(i: nat, j: nat, w: nat): nat {
    i * w + j
  }

  lemma RowsApart(i: nat, later: nat, rows: nat, w: nat)
    requires i < later <= rows
    ensures i * w + w <= later * w
    ensures later * w + w <= (rows + 1) * w
  {
    Stretch(i, later - i - 1, w);
    Stretch(later, rows - later, w);
  }

  lemma Stretch(i: nat, d: nat, w: nat)
    ensures i * w + w <= (i + d + 1) * w
  {
    assert (i + d + 1) * w == i * w + d * w + w;
    assert d * w >= 0;
  }

  /** Row i of the table, starting at `start`, holds the answers for the suffixes from i. */
  ghost predicate RowRight(cells: seq<nat>, start: nat, a: seq<string>, b: seq<string>) {
    start + |b| < |cells| &&
    forall c :: start <= c <= start + |b| ==> cells[c] == Lcs(a, b[c - start..])
  }

  /** The rows from the i-th on hold the answers, and the cells before them are untouched. */
  ghost predicate Filled(cells: seq<nat>, a: seq<string>, b: seq<string>, i: nat) {
    && i <= |a|
    && (forall r :: i <= r <= |a| ==> RowRight(cells, Cell(r, 0, |b| + 1), a[r..], b))
    && (forall c :: 0 <= c < Cell(i, 0, |b| + 1) && c < |cells| ==> cells[c] == 0)
  }

  /** Only the row that starts at `start` differs. */
  ghost predicate SameElsewhere(was: seq<nat>, now: seq<nat>, start: nat, end: nat) {
    |was| == |now| && forall c :: 0 <= c < |now| && (c < start || end < c) ==> now[c] == was[c]
  }

  lemma RowStays(was: seq<nat>, now: seq<nat>, start: nat, end: nat, at: nat, a: seq<string>, b: seq<string>)
    requires SameElsewhere(was, now, start, end) && end < at && RowRight(was, at, a, b)
    ensures RowRight(now, at, a, b)
  {
  }

  /** One more row filled, the rows behind it unchanged. */
  lemma RowFilled(was: seq<nat>, now: seq<nat>, a: seq<string>, b: seq<string>, i: nat)
    requires Filled(was, a, b, i + 1)
    requires RowRight(now, Cell(i, 0, |b| + 1), a[i..], b)
    requires SameElsewhere(was, now, Cell(i, 0, |b| + 1), Cell(i, 0, |b| + 1) + |b|)
    ensures Filled(now, a, b, i)
  {
    var w := |b| + 1;
    var start := Cell(i, 0, w);
    NextRow(i, w);
    forall r | i < r <= |a| ensures RowRight(now, Cell(r, 0, w), a[r..], b) {
      RowsApart(i, r, |a|, w);
      RowStays(was, now, start, start + |b|, Cell(r, 0, w), a[r..], b);
    }
  }

  lemma NextRow(i: nat, w: nat)
    ensures Cell(i + 1, 0, w) == Cell(i, 0, w) + w
  {
  }

  lemma NothingFilled(cells: seq<nat>, a: seq<string>, b: seq<string>)
    requires |cells| == (|a| + 1) * (|b| + 1) && forall c :: 0 <= c < |cells| ==> cells[c] == 0
    ensures Filled(cells, a, b, |a|)
  {
    assert |cells| == Cell(|a|, 0, |b| + 1) + |b| + 1;
    forall c | Cell(|a|, 0, |b| + 1) <= c <= Cell(|a|, 0, |b| + 1) + |b| ensures cells[c] == 0 {
    }
    assert a[|a|..] == [];
  }

  method FillTable(a: seq<string>, b: seq<string>) returns (table: array<nat>)
    ensures fresh(table)
    ensures forall i :: 0 <= i <= |a| ==> RowRight(table[..], Cell(i, 0, |b| + 1), a[i..], b)
  {
    var w := |b| + 1;
    assert (|a| + 1) * w == |a| * w + w;
    table := new nat[(|a| + 1) * w](_ => 0);
    var i := |a|;
    NothingFilled(table[..], a, b);
    while i > 0
      invariant 0 <= i <= |a|
      invariant fresh(table) && Filled(table[..], a, b, i)
    {
      i := i - 1;
      ghost var was := table[..];
      RowBelow(was, a, b, i);
      FillRow(table, a[i..], b, Cell(i, 0, w));
      RowFilled(was, table[..], a, b, i);
    }
  }

  /** What filling row i relies on. */
  lemma RowBelow(cells: seq<nat>, a: seq<string>, b: seq<string>, i: nat)
    requires Filled(cells, a, b, i + 1)
    ensures a[i..] != [] && RowRight(cells, Cell(i, 0, |b| + 1) + |b| + 1, a[i..][1..], b)
    ensures cells[Cell(i, 0, |b| + 1) + |b|] == 0
  {
    NextRow(i, |b| + 1);
    assert a[i..][1..] == a[i + 1..];
    assert RowRight(cells, Cell(i + 1, 0, |b| + 1), a[i + 1..], b);
  }

  lemma LcsStep(a: seq<string>, b: seq<string>, j: nat)
    requires a != [] && j < |b|
    ensures Lcs(a, b[j..]) == if a[0] == b[j] then Lcs(a[1..], b[j + 1..]) + 1
                              else Max(Lcs(a[1..], b[j..]), Lcs(a, b[j + 1..]))
  {
    assert b[j..][1..] == b[j + 1..];
  }

  method FillRow(table: array<nat>, a: seq<string>, b: seq<string>, start: nat)
    requires a != []
    requires RowRight(table[..], start + |b| + 1, a[1..], b)
    requires table[start + |b|] == 0
    modifies table
    ensures RowRight(table[..], start, a, b)
    ensures SameElsewhere(old(table[..]), table[..], start, start + |b|)
  {
    ghost var was := table[..];
    var below := start + |b| + 1;
    var j := |b|;
    while j > 0
      invariant 0 <= j <= |b|
      invariant forall c :: start + j <= c <= start + |b| ==> table[c] == Lcs(a, b[c - start..])
      invariant forall c :: 0 <= c < table.Length && (c < start || start + |b| < c) ==> table[c] == was[c]
    {
      j := j - 1;
      assert table[below + j + 1] == was[below + j + 1] && table[below + j] == was[below + j];
      var value := if a[0] == b[j] then table[below + j + 1] + 1
                   else Max(table[below + j], table[start + j + 1]);
      LcsStep(a, b, j);
      table[start + j] := value;
    }
  }

  lemma CellAnswers(cells: seq<nat>, a: seq<string>, b: seq<string>, i: nat, j: nat)
    requires i <= |a| && j <= |b|
    requires RowRight(cells, Cell(i, 0, |b| + 1), a[i..], b)
    ensures Cell(i, j, |b| + 1) < |cells|
    ensures cells[Cell(i, j, |b| + 1)] == Lcs(a[i..], b[j..])
  {
    assert Cell(i, j, |b| + 1) == Cell(i, 0, |b| + 1) + j;
  }

  lemma WalkStep(a: seq<string>, b: seq<string>, i: nat, j: nat)
    requires i < |a| && j < |b|
    ensures Walk(a[i..], b[j..]) ==
            if a[i] == b[j] then [Edit(Context, a[i])] + Walk(a[i + 1..], b[j + 1..])
            else if Lcs(a[i + 1..], b[j..]) >= Lcs(a[i..], b[j + 1..])
            then [Edit(Removed, a[i])] + Walk(a[i + 1..], b[j..])
            else [Edit(Added, b[j])] + Walk(a[i..], b[j + 1..])
  {
    assert a[i..][1..] == a[i + 1..] && b[j..][1..] == b[j + 1..];
  }

  /** The edit the walk puts out at (i, j). */
  ghost function EditAt(a: seq<string>, b: seq<string>, i: nat, j: nat): Edit
    requires i < |a| && j < |b|
  {
    if a[i] == b[j] then Edit(Context, a[i])
    else if Lcs(a[i + 1..], b[j..]) >= Lcs(a[i..], b[j + 1..]) then Edit(Removed, a[i])
    else Edit(Added, b[j])
  }

  lemma WalkEnd(a: seq<string>, b: seq<string>)
    requires a == [] || b == []
    ensures Walk(a, b) == Tag(Removed, a) + Tag(Added, b)
  {
  }

  method WalkTable(table: array<nat>, a: seq<string>, b: seq<string>) returns (out: seq<Edit>)
    requires forall i :: 0 <= i <= |a| ==> RowRight(table[..], Cell(i, 0, |b| + 1), a[i..], b)
    ensures out == Walk(a, b)
  {
    hide Walk, Lcs, Tag;
    out := [];
    var i, j := 0, 0;
    ghost var rest := Walk(a, b);
    assert a[0..] == a && b[0..] == b;
    while i < |a| && j < |b|
      invariant 0 <= i <= |a| && 0 <= j <= |b|
      invariant rest == Walk(a[i..], b[j..])
      invariant out + rest == Walk(a, b)
      decreases |a| - i + |b| - j
    {
      WalkStep(a, b, i, j);
      CellAnswers(table[..], a, b, i + 1, j);
      CellAnswers(table[..], a, b, i, j + 1);
      ghost var next := EditAt(a, b, i, j);
      var edit;
      if a[i] == b[j] {
        edit := Edit(Context, a[i]);
        i, j := i + 1, j + 1;
      } else if table[Cell(i + 1, j, |b| + 1)] >= table[Cell(i, j + 1, |b| + 1)] {
        edit := Edit(Removed, a[i]);
        i := i + 1;
      } else {
        edit := Edit(Added, b[j]);
        j := j + 1;
      }
      assert edit == next;
      ghost var later := Walk(a[i..], b[j..]);
      assert rest == [edit] + later;
      Shift(out, edit, later);
      rest := later;
      out := out + [edit];
    }
    WalkEnd(a[i..], b[j..]);
    assert out + rest == out + Tag(Removed, a[i..]) + Tag(Added, b[j..]);
    out := out + Tag(Removed, a[i..]);
    out := out + Tag(Added, b[j..]);
  }

  method AlignMid(a: seq<string>, b: seq<string>) returns (out: seq<Edit>)
    ensures out == Align(a, b)
  {
    if a == [] {
      assert |a| * |b| == 0;
      return Tag(Added, b);
    }
    if b == [] {
      assert |a| * |b| == 0;
      return Tag(Removed, a);
    }
    if |a| * |b| > LCS_MAX_CELLS {
      return Tag(Removed, a) + Tag(Added, b);
    }
    var table := FillTable(a, b);
    out := WalkTable(table, a, b);
  }
}
