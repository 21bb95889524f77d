/**
 `display_windows` and `FileChangeSummary::from_texts` of `agent_diff.rs`: which
 edits of a script are shown, and how many rows are hidden.
 */
module DiffWindows {
  import opened Basics
  import opened LineDiff
  import opened DiffOps

  const TOOL_DIFF_MAX_ROWS: nat := 12
  const CONTEXT_LINES: nat := 3

  /** The half-open range of op indices [start, end). */
  datatype Window = Window(start: nat, end: nat)

  predicate Changed(op: Op) {
    !op.edit.kind.Context?
  }

  /** Op c is changed and at most `CONTEXT_LINES` positions away from i. */
  ghost predicate Reaches(ops: seq<Op>, c: int, i: int) {
    0 <= c < |ops| && Changed(ops[c]) && i - CONTEXT_LINES <= c <= i + CONTEXT_LINES
  }

  ghost predicate Near(ops: seq<Op>, i: int) {
    exists c :: Reaches(ops, c, i)
  }

  ghost predicate Inside(windows: seq<Window>, i: int) {
    exists k :: Holds(windows, k, i)
  }

  ghost predicate Holds(windows: seq<Window>, k: int, i: int) {
    0 <= k < |windows| && windows[k].start <= i < windows[k].end
  }

  /** Non-empty, in bounds, and at least one op between neighbours. */
  ghost predicate Separated(windows: seq<Window>, bound: nat) {
    && (forall k :: 0 <= k < |windows| ==> windows[k].start < windows[k].end <= bound)
    && (forall k, l :: 0 <= k < l < |windows| ==> windows[k].end < windows[l].start)
  }

  /** The windows hold exactly the ops near a change. */
  ghost predicate CoverNear(windows: seq<Window>, ops: seq<Op>) {
    forall i :: 0 <= i < |ops| ==> (Inside(windows, i) <==> Near(ops, i))
  }

  // ----- windows -----

  /** The spans from a first to a last changed op that the first loop collects from `ops[..n]`. */
  ghost predicate Spans(spans: seq<Window>, ops: seq<Op>, n: nat)
    requires n <= |ops|
  {
    && (forall k :: 0 <= k < |spans| ==>
          && spans[k].start < spans[k].end <= n
          && Changed(ops[spans[k].start]) && Changed(ops[spans[k].end - 1]))
    && (forall k, l :: 0 <= k < l < |spans| ==> spans[k].end + 2 * CONTEXT_LINES < spans[l].start)
    && (forall c {:trigger Inside(spans, c)} :: 0 <= c < n && Changed(ops[c]) ==> Inside(spans, c))
    && (forall k, i :: Holds(spans, k, i) ==> Near(ops, i))
  }

  /** `next` is `spans` with the last span running on to `n`. */
  ghost predicate RunsOn(spans: seq<Window>, next: seq<Window>, n: nat) {
    && spans != [] && |next| == |spans|
    && next[|spans| - 1] == Window(spans[|spans| - 1].start, n + 1)
    && spans[|spans| - 1].end <= n <= spans[|spans| - 1].end + 2 * CONTEXT_LINES
    && forall k :: 0 <= k < |spans| - 1 ==> next[k] == spans[k]
  }

  lemma ExtendedNear(spans: seq<Window>, next: seq<Window>, ops: seq<Op>, n: nat, k: int, i: int)
    requires n < |ops| && Spans(spans, ops, n) && Changed(ops[n]) && RunsOn(spans, next, n)
    requires Holds(next, k, i)
    ensures Near(ops, i)
  {
    var z := |spans| - 1;
    var e := spans[z].end - 1;
    assert Changed(ops[e]);
    assert Holds(spans, k, i) || Reaches(ops, e, i) || Reaches(ops, n, i);
  }

  lemma ExtendedCovers(spans: seq<Window>, next: seq<Window>, ops: seq<Op>, n: nat, c: nat)
    requires n < |ops| && Spans(spans, ops, n) && RunsOn(spans, next, n)
    requires c <= n && Changed(ops[c])
    ensures Inside(next, c)
  {
    if c < n {
      assert Inside(spans, c);
      var k :| Holds(spans, k, c);
      assert Holds(next, k, c);
    } else {
      assert Holds(spans, |spans| - 1, spans[|spans| - 1].start);
      assert Holds(next, |spans| - 1, c);
    }
  }

  lemma SpanExtends(spans: seq<Window>, ops: seq<Op>, n: nat)
    requires n < |ops| && Spans(spans, ops, n) && Changed(ops[n])
    requires spans != [] && n <= spans[|spans| - 1].end + 2 * CONTEXT_LINES
    ensures Spans(spans[|spans| - 1 := Window(spans[|spans| - 1].start, n + 1)], ops, n + 1)
  {
    var next := spans[|spans| - 1 := Window(spans[|spans| - 1].start, n + 1)];
    assert RunsOn(spans, next, n);
    forall k, i | Holds(next, k, i) ensures Near(ops, i) {
      ExtendedNear(spans, next, ops, n, k, i);
    }
    forall c {:trigger Inside(next, c)} | 0 <= c < n + 1 && Changed(ops[c]) ensures Inside(next, c) {
      ExtendedCovers(spans, next, ops, n, c);
    }
  }

  lemma OpenedCovers(spans: seq<Window>, ops: seq<Op>, n: nat)
    requires n < |ops| && Spans(spans, ops, n) && Changed(ops[n])
    ensures var next := spans + [Window(n, n + 1)];
            && (forall c {:trigger Inside(next, c)} :: 0 <= c <= n && Changed(ops[c]) ==> Inside(next, c))
            && (forall k, i :: Holds(next, k, i) ==> Near(ops, i))
  {
    var next := spans + [Window(n, n + 1)];
    forall k, i | Holds(next, k, i) ensures Near(ops, i) {
      assert Holds(spans, k, i) || Reaches(ops, n, i);
    }
    forall c | 0 <= c <= n && Changed(ops[c]) ensures Inside(next, c) {
      if c < n {
        assert Inside(spans, c);
        var k :| Holds(spans, k, c);
        assert Holds(next, k, c);
      } else {
        assert Holds(next, |spans|, c);
      }
    }
  }

  lemma SpanOpens(spans: seq<Window>, ops: seq<Op>, n: nat)
    requires n < |ops| && Spans(spans, ops, n) && Changed(ops[n])
    requires spans == [] || n > spans[|spans| - 1].end + 2 * CONTEXT_LINES
    ensures Spans(spans + [Window(n, n + 1)], ops, n + 1)
  {
    OpenedCovers(spans, ops, n);
  }

  function Widen(w: Window, bound: nat): Window {
    Window(if w.start < CONTEXT_LINES then 0 else w.start - CONTEXT_LINES,
           Min(w.end + CONTEXT_LINES, bound))
  }

  method CollectSpans(ops: seq<Op>) returns (spans: seq<Window>)
    ensures Spans(spans, ops, |ops|)
  {
    spans := [];
    for index := 0 to |ops|
      invariant Spans(spans, ops, index)
    {
      if !Changed(ops[index]) {
        continue;
      }
      if spans != [] && index <= spans[|spans| - 1].end + CONTEXT_LINES * 2 {
        SpanExtends(spans, ops, index);
        spans := spans[|spans| - 1 := Window(spans[|spans| - 1].start, index + 1)];
      } else {
        SpanOpens(spans, ops, index);
        spans := spans + [Window(index, index + 1)];
      }
    }
  }

  lemma WidenedCover(spans: seq<Window>, windows: seq<Window>, ops: seq<Op>, i: nat)
    requires Spans(spans, ops, |ops|) && i < |ops|
    requires windows == seq(|spans|, k requires 0 <= k < |spans| => Widen(spans[k], |ops|))
    ensures Inside(windows, i) <==> Near(ops, i)
  {
    if Inside(windows, i) {
      var k :| Holds(windows, k, i);
      assert windows[k] == Widen(spans[k], |ops|);
      assert Holds(spans, k, i) || Reaches(ops, spans[k].start, i) || Reaches(ops, spans[k].end - 1, i);
    }
    if Near(ops, i) {
      var c :| Reaches(ops, c, i);
      assert Inside(spans, c);
      var k :| Holds(spans, k, c);
      assert windows[k] == Widen(spans[k], |ops|);
      assert Holds(windows, k, i);
    }
  }

  method DisplayWindows(ops: seq<Op>) returns (windows: seq<Window>)
    ensures Separated(windows, |ops|)
    ensures CoverNear(windows, ops)
  {
    var spans := CollectSpans(ops);
    windows := [];
    for k := 0 to |spans|
      invariant windows == seq(k, l requires 0 <= l < k => Widen(spans[l], |ops|))
    {
      var w := Widen(spans[k], |ops|);
      if w.end > w.start {
        windows := windows + [w];
      }
    }
    forall i | 0 <= i < |ops| ensures Inside(windows, i) <==> Near(ops, i) {
      WidenedCover(spans, windows, ops, i);
    }
  }

  // ----- rows -----

  /** The ops of `ops[..n]` that are near a change, in order. */
  ghost function Shown(ops: seq<Op>, n: nat): seq<Op>
    requires n <= |ops|
  {
    if n == 0 then []
    else if Near(ops, n - 1) then Shown(ops, n - 1) + [ops[n - 1]]
    else Shown(ops, n - 1)
  }

  lemma ShownGrows(ops: seq<Op>, n: nat, m: nat)
    requires n <= m <= |ops|
    ensures Shown(ops, n) <= Shown(ops, m)
    ensures |Shown(ops, m)| <= |Shown(ops, n)| + m - n
    ensures (forall i :: n <= i < m ==> !Near(ops, i)) ==> Shown(ops, m) == Shown(ops, n)
    ensures (forall i :: n <= i < m ==> Near(ops, i)) ==> |Shown(ops, m)| == |Shown(ops, n)| + m - n
    decreases m - n
  {
    if n < m {
      ShownGrows(ops, n, m - 1);
    }
  }

  /** Where window k begins, counting the end of all windows as one more. */
  ghost function StartOf(windows: seq<Window>, k: nat, bound: nat): nat
    requires k <= |windows|
  {
    if k == |windows| then bound else windows[k].start
  }

  /** Where the window before window k ends. */
  ghost function EndOf(windows: seq<Window>, k: nat): nat
    requires k <= |windows|
  {
    if k == 0 then 0 else windows[k - 1].end
  }

  lemma NotNearInGap(ops: seq<Op>, windows: seq<Window>, k: nat, i: nat)
    requires k <= |windows| && Separated(windows, |ops|) && CoverNear(windows, ops)
    requires EndOf(windows, k) <= i < StartOf(windows, k, |ops|) <= |ops|
    ensures !Near(ops, i)
  {
    assert !Inside(windows, i) by {
      forall l ensures !Holds(windows, l, i) {
        if 0 <= l < k - 1 {
          assert windows[l].end < windows[k - 1].start;
        } else if k < l < |windows| {
          assert windows[k].end < windows[l].start;
        }
      }
    }
  }

  /** Nothing is shown between one window and the next. */
  lemma GapIsSilent(ops: seq<Op>, windows: seq<Window>, k: nat)
    requires k <= |windows| && Separated(windows, |ops|) && CoverNear(windows, ops)
    ensures EndOf(windows, k) <= StartOf(windows, k, |ops|) <= |ops|
    ensures Shown(ops, StartOf(windows, k, |ops|)) == Shown(ops, EndOf(windows, k))
  {
    forall i | EndOf(windows, k) <= i < StartOf(windows, k, |ops|) ensures !Near(ops, i) {
      NotNearInGap(ops, windows, k, i);
    }
    ShownGrows(ops, EndOf(windows, k), StartOf(windows, k, |ops|));
  }

  lemma WindowIsShown(ops: seq<Op>, windows: seq<Window>, k: nat, i: nat)
    requires k < |windows| && Separated(windows, |ops|)
    requires CoverNear(windows, ops)
    requires windows[k].start <= i <= windows[k].end
    ensures |Shown(ops, i)| == |Shown(ops, windows[k].start)| + i - windows[k].start
    ensures i < windows[k].end ==> Shown(ops, i + 1) == Shown(ops, i) + [ops[i]]
  {
    forall j | windows[k].start <= j < windows[k].end ensures Near(ops, j) {
      assert Holds(windows, k, j);
      assert Inside(windows, j);
    }
    ShownGrows(ops, windows[k].start, i);
  }

  method CountRows(ops: seq<Op>, windows: seq<Window>) returns (total: nat)
    requires Separated(windows, |ops|)
    requires CoverNear(windows, ops)
    ensures total == |Shown(ops, |ops|)|
  {
    total := 0;
    GapIsSilent(ops, windows, 0);
    for k := 0 to |windows|
      invariant total == |Shown(ops, StartOf(windows, k, |ops|))|
    {
      WindowIsShown(ops, windows, k, windows[k].end);
      GapIsSilent(ops, windows, k + 1);
      total := total + (windows[k].end - windows[k].start);
    }
  }

  method TakeRows(ops: seq<Op>, windows: seq<Window>) returns (rows: seq<Op>)
    requires Separated(windows, |ops|)
    requires CoverNear(windows, ops)
    ensures var all := Shown(ops, |ops|); rows == all[..Min(TOOL_DIFF_MAX_ROWS, |all|)]
  {
    rows := [];
    GapIsSilent(ops, windows, 0);
    var k := 0;
    while k < |windows|
      invariant 0 <= k <= |windows| && |rows| < TOOL_DIFF_MAX_ROWS
      invariant rows == Shown(ops, StartOf(windows, k, |ops|))
    {
      var i := windows[k].start;
      while i < windows[k].end && |rows| != TOOL_DIFF_MAX_ROWS
        invariant windows[k].start <= i <= windows[k].end && |rows| <= TOOL_DIFF_MAX_ROWS
        invariant rows == Shown(ops, i)
      {
        WindowIsShown(ops, windows, k, i);
        rows := rows + [ops[i]];
        i := i + 1;
      }
      if |rows| == TOOL_DIFF_MAX_ROWS {
        ShownGrows(ops, i, |ops|);
        return;
      }
      GapIsSilent(ops, windows, k + 1);
      k := k + 1;
    }
  }

  /** What a tool card shows of one file's change. */
  datatype FileChangeSummary = FileChangeSummary(
    path: string, added: nat, removed: nat, created: bool, rows: seq<Op>, hidden: nat)

  /** The numbered script of a change; a missing old text is a new file. */
  ghost function OpsOf(before: Option<string>, after: string): seq<Op> {
    Number(Script(Lines(if before.Some? then before.value else ""), Lines(after)))
  }

  method FromTexts(path: string, before: Option<string>, after: string) returns (summary: FileChangeSummary)
    ensures var ops := OpsOf(before, after);
            var all := Shown(ops, |ops|);
            && summary.path == path && summary.created == before.None?
            && summary.rows == all[..Min(TOOL_DIFF_MAX_ROWS, |all|)]
            && |summary.rows| + summary.hidden == |all|
    ensures var s := Script(Lines(if before.Some? then before.value else ""), Lines(after));
            summary.added == CountKind(s, Added) && summary.removed == CountKind(s, Removed)
  {
    var ops, added, removed := DiffTexts(if before.Some? then before.value else "", after);
    var windows := DisplayWindows(ops);
    var total := CountRows(ops, windows);
    var rows := TakeRows(ops, windows);
    summary := FileChangeSummary(path, added, removed, before.None?, rows,
                                 if total > |rows| then total - |rows| else 0);
  }

  // ----- when there is nothing to show -----

  lemma {:induction false} AllContext(s: seq<Edit>)
    requires forall i :: 0 <= i < |s| ==> s[i].kind.Context?
    ensures OldSide(s) == NewSide(s)
  {
    if s != [] {
      AllContext(s[1..]);
    }
  }

  lemma CommonPrefixOfSelf(a: seq<string>)
    ensures CommonPrefix(a, a) == |a|
  {
  }

  lemma EqualLinesUnchanged(a: seq<string>, i: nat)
    requires i < |Script(a, a)|
    ensures Script(a, a)[i].kind.Context?
  {
    CommonPrefixOfSelf(a);
    var t := Trim(a, a);
    assert t.midOld == [] && t.midNew == [] && t.suffix == [];
    assert Align(t.midOld, t.midNew) == [];
  }

  lemma NoRowsWhenEqual(lines: seq<string>)
    ensures var ops := Number(Script(lines, lines));
            Shown(ops, |ops|) == []
  {
    var ops := Number(Script(lines, lines));
    forall c | 0 <= c < |ops| ensures !Changed(ops[c]) {
      EqualLinesUnchanged(lines, c);
    }
    forall i | 0 <= i < |ops| ensures !Near(ops, i) {
    }
    ShownGrows(ops, 0, |ops|);
  }

  lemma RowsWhenChanged(ops: seq<Op>, c: nat)
    requires c < |ops| && Changed(ops[c])
    ensures Shown(ops, |ops|) != []
  {
    assert Reaches(ops, c, c);
    ShownGrows(ops, c + 1, |ops|);
  }

  lemma ScriptChanges(before: seq<string>, after: seq<string>) returns (c: nat)
    requires before != after
    ensures c < |Script(before, after)| && !Script(before, after)[c].kind.Context?
  {
    var s := Script(before, after);
    ScriptParts(before, after);
    if forall i :: 0 <= i < |s| ==> s[i].kind.Context? {
      AllContext(s);
    }
    c :| 0 <= c < |s| && !s[c].kind.Context?;
  }

  /** There is a row to show exactly when the two line lists differ. */
  lemma RowsEmptyIffLinesEqual(before: seq<string>, after: seq<string>)
    ensures var ops := Number(Script(before, after));
            Shown(ops, |ops|) == [] <==> before == after
  {
    if before == after {
      NoRowsWhenEqual(before);
    } else {
      var c := ScriptChanges(before, after);
      RowsWhenChanged(Number(Script(before, after)), c);
    }
  }
}
