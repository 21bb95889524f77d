/**
 Applying the woven hunks to the old lines. The reader of a patch is defined on
 its own: it copies up to a hunk's place, insists that both header places and the
 removed and kept lines agree with what it has, and takes over the new side.
 */
module PatchApply {
  import opened Basics
  import opened LineDiff
  import opened DiffOps
  import opened DiffWindows
  import opened UnifiedPatch

  /** How far the old lines are consumed, and the new lines so far. */
  datatype Cursor = Cursor(pos: nat, out: seq<string>)

  /** The number of lines that come before a hunk which starts at line `no`. */
  function Before(no: nat): nat {
    if no == 0 then 0 else no - 1
  }

  function ApplyHunk(h: Hunk, lines: seq<string>, c: Cursor): Option<Cursor> {
    var at := Before(h.oldStart);
    if c.pos <= at <= at + h.oldCount <= |lines|
       && OldSide(h.lines) == lines[at..at + h.oldCount]
       && |c.out| + (at - c.pos) == Before(h.newStart)
       && |NewSide(h.lines)| == h.newCount
    then Some(Cursor(at + h.oldCount, c.out + lines[c.pos..at] + NewSide(h.lines)))
    else None
  }

  function ApplyHunks(hunks: seq<Hunk>, lines: seq<string>): Option<Cursor> {
    if hunks == [] then Some(Cursor(0, []))
    else
      var c := ApplyHunks(hunks[..|hunks| - 1], lines);
      if c.None? then None else ApplyHunk(hunks[|hunks| - 1], lines, c.value)
  }

  function Apply(hunks: seq<Hunk>, lines: seq<string>): Option<seq<string>> {
    var c := ApplyHunks(hunks, lines);
    if c.None? || c.value.pos > |lines| then None else Some(c.value.out + lines[c.value.pos..])
  }

  // ----- pieces of a script -----

  lemma Pieces(s: seq<Edit>, a: nat, b: nat)
    requires a <= b <= |s|
    ensures OldSide(s[..b]) == OldSide(s[..a]) + OldSide(s[a..b])
    ensures NewSide(s[..b]) == NewSide(s[..a]) + NewSide(s[a..b])
  {
    assert s[..b] == s[..a] + s[a..b];
    SidesConcat(s[..a], s[a..b]);
  }

  ghost predicate Untouched(s: seq<Edit>, a: nat, b: nat)
    requires a <= b <= |s|
  {
    forall i :: a <= i < b ==> s[i].kind.Context?
  }

  lemma UntouchedSides(s: seq<Edit>, a: nat, b: nat)
    requires a <= b <= |s| && Untouched(s, a, b)
    ensures OldSide(s[a..b]) == NewSide(s[a..b])
    ensures a < b ==> OldSide(s[a..b]) != []
  {
    AllContext(s[a..b]);
  }

  /** The cursor after the edits `s[..a]`. */
  ghost function At(s: seq<Edit>, a: nat): Cursor
    requires a <= |s|
  {
    Cursor(|OldSide(s[..a])|, NewSide(s[..a]))
  }

  /** The hunk's header and body describe the edits `s[p..q]`. */
  ghost predicate HunkAt(h: Hunk, s: seq<Edit>, p: nat, q: nat)
    requires p <= q <= |s|
  {
    && h.lines == s[p..q]
    && h.oldCount == |OldSide(s[p..q])| && h.newCount == |NewSide(s[p..q])|
    && Before(h.oldStart) == |OldSide(s[..p])| && Before(h.newStart) == |NewSide(s[..p])|
  }

  lemma HunkApplies(h: Hunk, s: seq<Edit>, a: nat, p: nat, q: nat)
    requires a <= p <= q <= |s| && Untouched(s, a, p) && HunkAt(h, s, p, q)
    ensures ApplyHunk(h, OldSide(s), At(s, a)) == Some(At(s, q))
  {
    Pieces(s, a, p);
    Pieces(s, p, q);
    Pieces(s, q, |s|);
    UntouchedSides(s, a, p);
    assert s[..|s|] == s;
    var lines := OldSide(s);
    assert lines == OldSide(s[..a]) + OldSide(s[a..p]) + OldSide(s[p..q]) + OldSide(s[q..]);
    assert lines[|OldSide(s[..a])|..|OldSide(s[..p])|] == OldSide(s[a..p]);
    assert lines[|OldSide(s[..p])|..|OldSide(s[..q])|] == OldSide(s[p..q]);
  }

  // ----- what the weaving knows after the first m edits -----

  /** One past the last shown edit among the first m. */
  ghost function Reach(ops: seq<Op>, m: nat): (n: nat)
    requires m <= |ops|
    ensures n <= m
  {
    if m == 0 then 0 else if Near(ops, m - 1) then m else Reach(ops, m - 1)
  }

  /** Edits after the last shown one are unchanged lines. */
  lemma AfterReach(s: seq<Edit>, m: nat)
    requires m <= |s|
    ensures Untouched(s, Reach(Number(s), m), m)
  {
    if m > 0 && !Near(Number(s), m - 1) {
      AfterReach(s, m - 1);
      assert !Reaches(Number(s), m - 1, m - 1);
    }
  }

  /** A changed edit comes directly after a shown one, or first. */
  lemma ChangedFollowsShown(s: seq<Edit>, m: nat)
    requires m < |s| && !s[m].kind.Context?
    ensures Near(Number(s), m)
    ensures Reach(Number(s), m) == m
  {
    assert Reaches(Number(s), m, m);
    assert m > 0 ==> Reaches(Number(s), m, m - 1);
  }

  /** The last numbers seen are those of `s[..l]`; a side without one is still empty. */
  ghost predicate PrevAt(w: Weaving, s: seq<Edit>, l: nat)
    requires l <= |s|
  {
    && (if w.prevOld.Some? then w.prevOld.value == |OldSide(s[..l])| else OldSide(s[..l]) == [])
    && (if w.prevNew.Some? then w.prevNew.value == |NewSide(s[..l])| else NewSide(s[..l]) == [])
  }

  /** The draft describes `s[p..l]`; a side it has no line of is where it was when it opened. */
  ghost predicate DraftAt(w: Weaving, s: seq<Edit>, p: nat, l: nat)
    requires p <= l <= |s|
  {
    w.draft.Some? &&
    var d := w.draft.value;
    && p < l && HunkAt(Write(d), s, p, l)
    && (d.firstOld.None? <==> d.oldCount == 0)
    && (d.firstNew.None? <==> d.newCount == 0)
    && (w.prevOld.Some? || w.prevNew.Some?)
  }

  ghost predicate WovenTo(w: Weaving, s: seq<Edit>, a: nat, p: nat, l: nat) {
    && a <= p <= l <= |s| && PrevAt(w, s, l)
    && Untouched(s, a, p) && ApplyHunks(w.done, OldSide(s)) == Some(At(s, a))
    && (if l == 0 then w == START else DraftAt(w, s, p, l))
  }

  lemma OneMore(s: seq<Edit>, a: nat, m: nat)
    requires a <= m < |s|
    ensures s[a..m + 1] == s[a..m] + [s[m]]
    ensures OldSide(s[a..m + 1]) == OldSide(s[a..m]) + if s[m].kind.Added? then [] else [s[m].text]
    ensures NewSide(s[a..m + 1]) == NewSide(s[a..m]) + if s[m].kind.Removed? then [] else [s[m].text]
  {
    SnocCounts(s[a..m], s[m]);
  }

  lemma PrevMoves(w: Weaving, s: seq<Edit>, l: nat, m: nat)
    requires l <= m < |s| && PrevAt(w, s, l)
    requires l < m ==> s[m].kind.Context?
    ensures PrevAt(Weave(w, Number(s)[m]), s, m + 1)
  {
    OneMore(s, 0, m);
    assert s[..m + 1] == s[0..m + 1] && s[..m] == s[0..m];
  }

  /** Only directly after a shown edit can a row continue the draft. */
  lemma GapBreaks(w: Weaving, s: seq<Edit>, l: nat, m: nat)
    requires l < m < |s| && PrevAt(w, s, l) && Untouched(s, l, m) && s[m].kind.Context?
    ensures !Continues(w, Number(s)[m])
  {
    Pieces(s, l, m);
    UntouchedSides(s, l, m);
  }

  lemma DraftExtends(w: Weaving, s: seq<Edit>, a: nat, p: nat, m: nat)
    requires m < |s| && WovenTo(w, s, a, p, m) && m > 0
    requires Continues(w, Number(s)[m])
    ensures WovenTo(Weave(w, Number(s)[m]), s, a, p, m + 1)
  {
    PrevMoves(w, s, m, m);
    OneMore(s, p, m);
    Pieces(s, p, m);
  }

  lemma DraftStarts(w: Weaving, s: seq<Edit>, l: nat, m: nat)
    requires l <= m < |s| && PrevAt(w, s, l)
    requires l < m ==> s[m].kind.Context?
    requires !Continues(w, Number(s)[m])
    ensures DraftAt(Weave(w, Number(s)[m]), s, m, m + 1)
  {
    OneMore(s, m, m);
    assert s[m..m] == [];
  }

  lemma FlushApplies(w: Weaving, s: seq<Edit>, a: nat, p: nat, l: nat)
    requires WovenTo(w, s, a, p, l)
    ensures ApplyHunks(Flush(w), OldSide(s)) == Some(At(s, l))
  {
    if l == 0 {
      assert s[..0] == [];
    } else {
      HunkApplies(Write(w.draft.value), s, a, p, l);
      assert Flush(w)[..|w.done|] == w.done;
    }
  }

  /** Weaving one more shown row keeps the invariant. */
  lemma RowWoven(w: Weaving, s: seq<Edit>, a: nat, p: nat, l: nat, m: nat) returns (start: nat, last: nat)
    requires m < |s| && l <= m && WovenTo(w, s, a, p, l) && Untouched(s, l, m)
    requires l < m ==> s[m].kind.Context?
    ensures WovenTo(Weave(w, Number(s)[m]), s, start, last, m + 1)
  {
    if Continues(w, Number(s)[m]) {
      if l < m {
        GapBreaks(w, s, l, m);
      }
      DraftExtends(w, s, a, p, m);
      start, last := a, p;
    } else {
      FlushApplies(w, s, a, p, l);
      PrevMoves(w, s, l, m);
      DraftStarts(w, s, l, m);
      start, last := l, m;
    }
  }

  lemma WeaveSnoc(rows: seq<Op>, row: Op)
    ensures WeaveAll(rows + [row]) == Weave(WeaveAll(rows), row)
  {
    assert (rows + [row])[..|rows|] == rows;
  }

  lemma NothingWoven(s: seq<Edit>)
    ensures WovenTo(START, s, 0, 0, 0)
  {
    assert s[..0] == [];
    assert OldSide([]) == [] && NewSide([]) == [];
  }

  lemma ShownRowWoven(s: seq<Edit>, k: nat, a: nat, p: nat) returns (start: nat, last: nat)
    requires k < |s| && Near(Number(s), k)
    requires WovenTo(WeaveAll(Shown(Number(s), k)), s, a, p, Reach(Number(s), k))
    ensures WovenTo(WeaveAll(Shown(Number(s), k + 1)), s, start, last, k + 1)
  {
    AfterReach(s, k);
    if !s[k].kind.Context? {
      ChangedFollowsShown(s, k);
    }
    WeaveSnoc(Shown(Number(s), k), Number(s)[k]);
    start, last := RowWoven(WeaveAll(Shown(Number(s), k)), s, a, p, Reach(Number(s), k), k);
  }

  lemma {:induction false} WeavingReaches(s: seq<Edit>, m: nat) returns (a: nat, p: nat)
    requires m <= |s|
    ensures WovenTo(WeaveAll(Shown(Number(s), m)), s, a, p, Reach(Number(s), m))
  {
    hide WovenTo, Near;
    if m == 0 {
      a, p := 0, 0;
      NothingWoven(s);
      assert WeaveAll([]) == START;
    } else {
      a, p := WeavingReaches(s, m - 1);
      if Near(Number(s), m - 1) {
        a, p := ShownRowWoven(s, m - 1, a, p);
      }
    }
  }

  lemma RestAt(s: seq<Edit>, l: nat)
    requires l <= |s|
    ensures |OldSide(s[..l])| <= |OldSide(s)|
    ensures OldSide(s)[|OldSide(s[..l])|..] == OldSide(s[l..])
  {
    assert s == s[..l] + s[l..];
    SidesConcat(s[..l], s[l..]);
  }

  lemma UntouchedTail(s: seq<Edit>, l: nat, m: nat)
    requires l <= m <= |s| && Untouched(s, l, m)
    ensures NewSide(s[..l]) + OldSide(s[l..]) == NewSide(s[..m]) + OldSide(s[m..])
  {
    UntouchedSides(s, l, m);
    Pieces(s, l, m);
    assert s[l..] == s[l..m] + s[m..];
    SidesConcat(s[l..m], s[m..]);
  }

  /** The hunks of the rows shown among the first m edits do exactly those edits. */
  lemma HunksDoShownEdits(s: seq<Edit>, m: nat)
    requires m <= |s|
    ensures Apply(HunksOf(Shown(Number(s), m)), OldSide(s)) == Some(NewSide(s[..m]) + OldSide(s[m..]))
  {
    var l := Reach(Number(s), m);
    var w := WeaveAll(Shown(Number(s), m));
    assert ApplyHunks(Flush(w), OldSide(s)) == Some(At(s, l)) by {
      var a, p := WeavingReaches(s, m);
      FlushApplies(w, s, a, p, l);
    }
    RestAt(s, l);
    AfterReach(s, m);
    UntouchedTail(s, l, m);
  }

  // ----- the summary's rows -----

  /** The first k shown rows are the rows shown among the first m edits, ending in the last of them. */
  lemma {:induction false} FirstRows(ops: seq<Op>, n: nat, k: nat) returns (m: nat)
    requires n <= |ops| && k <= |Shown(ops, n)|
    ensures m <= n && Shown(ops, m) == Shown(ops, n)[..k]
    ensures k < |Shown(ops, n)| ==> (m == 0 || Near(ops, m - 1))
    ensures k == |Shown(ops, n)| ==> m == n
  {
    if k == |Shown(ops, n)| {
      m := n;
    } else if k == 0 {
      m := 0;
    } else {
      var shorter := Shown(ops, n - 1);
      m := FirstRows(ops, n - 1, k);
      if k == |shorter| {
        m := Reach(ops, n - 1);
        ReachShows(ops, n - 1);
      }
    }
  }

  lemma ReachShows(ops: seq<Op>, n: nat)
    requires n <= |ops|
    ensures Shown(ops, Reach(ops, n)) == Shown(ops, n)
    ensures Reach(ops, n) == 0 || Near(ops, Reach(ops, n) - 1)
  {
  }

  lemma FirstRowsApply(s: seq<Edit>, rows: seq<Op>) returns (m: nat)
    requires rows <= Shown(Number(s), |s|)
    ensures m <= |s|
    ensures Apply(HunksOf(rows), OldSide(s)) == Some(NewSide(s[..m]) + OldSide(s[m..]))
    ensures rows != [] && |rows| < |Shown(Number(s), |s|)| ==> m > 0 && rows[|rows| - 1] == Number(s)[m - 1]
    ensures |rows| == |Shown(Number(s), |s|)| ==> m == |s|
  {
    m := FirstRows(Number(s), |s|, |rows|);
    assert rows == Shown(Number(s), |s|)[..|rows|];
    HunksDoShownEdits(s, m);
  }

  /**
   Applying the patch of a summary to the old lines. With nothing hidden it gives
   the new lines. Otherwise it gives the new side up to the last shown row and the
   old side from there on.
   */
  lemma PatchApplies(before: seq<string>, after: seq<string>, rows: seq<Op>) returns (m: nat)
    requires var ops := Number(Script(before, after));
             var all := Shown(ops, |ops|);
             rows == all[..Min(TOOL_DIFF_MAX_ROWS, |all|)]
    ensures var s := Script(before, after);
            var all := Shown(Number(s), |s|);
            && m <= |s|
            && Apply(HunksOf(rows), before) == Some(NewSide(s[..m]) + OldSide(s[m..]))
            && (|rows| < |all| ==> m > 0 && rows[|rows| - 1] == Number(s)[m - 1])
            && (|rows| == |all| ==> Apply(HunksOf(rows), before) == Some(after))
  {
    var s := Script(before, after);
    ScriptParts(before, after);
    m := FirstRowsApply(s, rows);
    assert s[..|s|] == s && s[|s|..] == [];
    assert after + OldSide([]) == after;
  }

  // ----- how many hunks -----

  /** The number of unbroken runs of shown edits among the first n. */
  ghost function Runs(ops: seq<Op>, n: nat): nat
    requires n <= |ops|
  {
    if n == 0 then 0
    else Runs(ops, n - 1) + if Near(ops, n - 1) && (n == 1 || !Near(ops, n - 2)) then 1 else 0
  }

  lemma RunsBetween(ops: seq<Op>, n: nat, m: nat)
    requires n <= m <= |ops|
    ensures (forall i :: n <= i < m ==> !Near(ops, i)) ==> Runs(ops, m) == Runs(ops, n)
    ensures n > 0 && (forall i :: n - 1 <= i < m ==> Near(ops, i)) ==> Runs(ops, m) == Runs(ops, n)
    decreases m - n
  {
    if n < m {
      RunsBetween(ops, n, m - 1);
    }
  }

  lemma GapRuns(ops: seq<Op>, windows: seq<Window>, k: nat)
    requires k <= |windows| && Separated(windows, |ops|) && CoverNear(windows, ops)
    ensures EndOf(windows, k) <= StartOf(windows, k, |ops|) <= |ops|
    ensures Runs(ops, StartOf(windows, k, |ops|)) == Runs(ops, EndOf(windows, k))
  {
    GapIsSilent(ops, windows, k);
    forall i | EndOf(windows, k) <= i < StartOf(windows, k, |ops|) ensures !Near(ops, i) {
      NotNearInGap(ops, windows, k, i);
    }
    RunsBetween(ops, EndOf(windows, k), StartOf(windows, k, |ops|));
  }

  lemma WindowIsRun(ops: seq<Op>, windows: seq<Window>, k: nat)
    requires k < |windows| && Separated(windows, |ops|) && CoverNear(windows, ops)
    ensures Runs(ops, windows[k].end) == Runs(ops, windows[k].start) + 1
  {
    var w := windows[k];
    forall i | w.start <= i < w.end ensures Near(ops, i) {
      assert Holds(windows, k, i);
      assert Inside(windows, i);
    }
    GapIsSilent(ops, windows, k);
    if w.start > 0 {
      assert k > 0 ==> windows[k - 1].end < w.start;
      NotNearInGap(ops, windows, k, w.start - 1);
    }
    RunsBetween(ops, w.start + 1, w.end);
  }

  /** Every display window is one run, so the windows count the runs. */
  lemma {:induction false} WindowsAreRuns(ops: seq<Op>, windows: seq<Window>, k: nat)
    requires k <= |windows| && Separated(windows, |ops|) && CoverNear(windows, ops)
    ensures StartOf(windows, k, |ops|) <= |ops| && Runs(ops, StartOf(windows, k, |ops|)) == k
  {
    GapRuns(ops, windows, k);
    if k > 0 {
      WindowsAreRuns(ops, windows, k - 1);
      WindowIsRun(ops, windows, k - 1);
    }
  }

  predicate BothSeen(w: Weaving) {
    w.prevOld.Some? && w.prevNew.Some?
  }

  /** Inside a run the chain of numbers breaks only while one side has none yet. */
  lemma BreakInRun(w: Weaving, s: seq<Edit>, k: nat)
    requires 0 < k < |s| && PrevAt(w, s, k) && w.draft.Some? && (w.prevOld.Some? || w.prevNew.Some?)
    requires !Continues(w, Number(s)[k])
    ensures !BothSeen(w) && BothSeen(Weave(w, Number(s)[k]))
  {
  }

  /** A run that starts after hidden rows starts a hunk. */
  lemma RunStartsHunk(w: Weaving, s: seq<Edit>, a: nat, p: nat, k: nat)
    requires 0 < k < |s| && Near(Number(s), k) && !Near(Number(s), k - 1)
    requires WovenTo(w, s, a, p, Reach(Number(s), k))
    ensures |Flush(Weave(w, Number(s)[k]))| == |Flush(w)| + 1
  {
    hide ApplyHunks, HunkAt, Near;
    var l := Reach(Number(s), k);
    AfterReach(s, k);
    if !s[k].kind.Context? {
      ChangedFollowsShown(s, k);
    }
    if l > 0 {
      GapBreaks(w, s, l, k);
    }
  }

  lemma WeavingGrows(w: Weaving, row: Op)
    ensures |Flush(w)| <= |Flush(Weave(w, row))| <= |Flush(w)| + 1
    ensures w.draft.Some? && Continues(w, row) ==> |Flush(Weave(w, row))| == |Flush(w)|
    ensures |Flush(Weave(w, row))| >= 1
  {
  }

  lemma FirstRowWoven(row: Op)
    ensures |Flush(Weave(START, row))| == 1 && Flush(START) == []
  {
  }

  /** What the first m edits leave: a hunk for each run, and one more only once both sides have a line. */
  ghost predicate CountedTo(s: seq<Edit>, m: nat)
    requires m <= |s|
  {
    var w := WeaveAll(Shown(Number(s), m));
    Runs(Number(s), m) <= |Flush(w)| <= Runs(Number(s), m) + if BothSeen(w) then 1 else 0
  }

  lemma {:induction false} HunkCountUpTo(s: seq<Edit>, m: nat)
    requires m <= |s|
    ensures CountedTo(s, m)
  {
    hide Near, Flush;
    if m > 0 {
      HunkCountUpTo(s, m - 1);
      if Near(Number(s), m - 1) {
        OneRowCounted(s, m - 1);
      }
    } else {
      NothingFlushed();
    }
  }

  lemma NothingFlushed()
    ensures Flush(START) == []
  {
  }

  lemma RunsStep(ops: seq<Op>, k: nat)
    requires k < |ops| && Near(ops, k)
    ensures Runs(ops, k + 1) == Runs(ops, k) + if k == 0 || !Near(ops, k - 1) then 1 else 0
    ensures Shown(ops, k + 1) == Shown(ops, k) + [ops[k]]
    ensures k == 0 ==> Runs(ops, k) == 0 && Shown(ops, k) == []
  {
    hide Near;
  }

  lemma SeenStaysSeen(w: Weaving, row: Op)
    ensures BothSeen(w) ==> BothSeen(Weave(w, row))
  {
  }

  /** One more row of the run that is being woven: no new hunk, unless one side gets its first line. */
  lemma RunGoesOn(s: seq<Edit>, k: nat, a: nat, p: nat)
    requires 0 < k < |s| && Near(Number(s), k - 1)
    requires WovenTo(WeaveAll(Shown(Number(s), k)), s, a, p, Reach(Number(s), k))
    ensures var w, row := WeaveAll(Shown(Number(s), k)), Number(s)[k];
            && |Flush(w)| <= |Flush(Weave(w, row))| <= |Flush(w)| + 1
            && (|Flush(Weave(w, row))| > |Flush(w)| ==> !BothSeen(w) && BothSeen(Weave(w, row)))
  {
    hide Near, ApplyHunks, Shown, WeaveAll, Untouched, HunkAt;
    var w := WeaveAll(Shown(Number(s), k));
    ReachHere(Number(s), k);
    WeavingGrows(w, Number(s)[k]);
    if !Continues(w, Number(s)[k]) {
      BreakInRun(w, s, k);
    }
  }

  lemma OneRowCounted(s: seq<Edit>, k: nat)
    requires k < |s| && CountedTo(s, k) && Near(Number(s), k)
    ensures CountedTo(s, k + 1)
  {
    hide Near, Flush, Reach, Runs, WeaveAll, Weave, BothSeen, Shown, WovenTo, Number;
    var ops := Number(s);
    var w := WeaveAll(Shown(ops, k));
    RunsStep(ops, k);
    WeaveSnoc(Shown(ops, k), ops[k]);
    SeenStaysSeen(w, ops[k]);
    var a, p := WeavingReaches(s, k);
    if k == 0 {
      NothingWovenYet();
      FirstRowWoven(ops[k]);
    } else if !Near(ops, k - 1) {
      RunStartsHunk(w, s, a, p, k);
    } else {
      RunGoesOn(s, k, a, p);
    }
  }

  lemma NothingWovenYet()
    ensures WeaveAll([]) == START
  {
  }

  lemma ReachHere(ops: seq<Op>, k: nat)
    requires 0 < k <= |ops| && Near(ops, k - 1)
    ensures Reach(ops, k) == k
  {
  }

  /** The windows that begin before op m are the first k. */
  ghost predicate FirstWindows(windows: seq<Window>, m: nat, k: nat) {
    k <= |windows| && forall j :: 0 <= j < |windows| ==> (j < k <==> windows[j].start < m)
  }

  lemma {:induction false} TouchedWindows(windows: seq<Window>, bound: nat, m: nat) returns (k: nat)
    requires Separated(windows, bound)
    ensures FirstWindows(windows, m, k)
  {
    if windows == [] {
      k := 0;
    } else {
      var n := |windows| - 1;
      k := TouchedWindows(windows[..n], bound, m);
      if k == n && windows[n].start < m {
        k := k + 1;
      } else if k < n {
        assert windows[..n][k].start >= m && windows[k].start < windows[k].end < windows[n].start;
      }
    }
  }

  lemma RunsMonotone(ops: seq<Op>, n: nat, m: nat)
    requires n <= m <= |ops|
    ensures Runs(ops, n) <= Runs(ops, m)
    decreases m - n
  {
    if n < m {
      RunsMonotone(ops, n, m - 1);
    }
  }

  /** The runs up to m are the windows that begin before m. */
  lemma RunsAreTouched(ops: seq<Op>, windows: seq<Window>, m: nat, k: nat)
    requires Separated(windows, |ops|) && CoverNear(windows, ops) && m <= |ops| && FirstWindows(windows, m, k)
    ensures Runs(ops, m) == k
  {
    hide CoverNear;
    WindowsAreRuns(ops, windows, k);
    RunsMonotone(ops, m, StartOf(windows, k, |ops|));
    if k > 0 {
      WindowOpens(ops, windows, k - 1);
      RunsMonotone(ops, windows[k - 1].start + 1, m);
    }
  }

  lemma WindowOpens(ops: seq<Op>, windows: seq<Window>, k: nat)
    requires k < |windows| && Separated(windows, |ops|) && CoverNear(windows, ops)
    ensures Runs(ops, windows[k].start + 1) == k + 1
  {
    WindowsAreRuns(ops, windows, k);
    WindowIsRun(ops, windows, k);
    forall i | windows[k].start <= i < windows[k].end ensures Near(ops, i) {
      assert Holds(windows, k, i);
      assert Inside(windows, i);
    }
    RunsBetween(ops, windows[k].start + 1, windows[k].end);
  }

  /**
   The rows of a summary reach to an op m. Their patch has a hunk for each display
   window that begins before m, and at most one hunk more.
   */
  lemma HunkCount(s: seq<Edit>, windows: seq<Window>, rows: seq<Op>) returns (m: nat, k: nat)
    requires Separated(windows, |s|) && CoverNear(windows, Number(s))
    requires var all := Shown(Number(s), |s|); rows == all[..Min(TOOL_DIFF_MAX_ROWS, |all|)]
    ensures m <= |s| && rows == Shown(Number(s), m)
    ensures |rows| < |Shown(Number(s), |s|)| ==> m > 0 && rows[|rows| - 1] == Number(s)[m - 1]
    ensures FirstWindows(windows, m, k) && k <= |HunksOf(rows)| <= k + 1
  {
    hide Near, CoverNear, Separated;
    m := FirstRows(Number(s), |s|, |rows|);
    k := TouchedWindows(windows, |s|, m);
    RunsAreTouched(Number(s), windows, m, k);
    HunkCountUpTo(s, m);
  }
}
