/**
 `patch_from_summary` of `agent_diff.rs`: weaving display rows back into hunks of
 a unified patch, and what applying those hunks to the old lines gives.
 */
module UnifiedPatch {
  import opened Basics
  import opened LineDiff
  import opened DiffOps
  import opened DiffWindows

  /** A hunk while it is being woven, with the numbers known when it was opened. */
  datatype Draft = Draft(
    lines: seq<Edit>, firstOld: Option<nat>, firstNew: Option<nat>, oldCount: nat, newCount: nat,
    prevOld: Option<nat>, prevNew: Option<nat>)

  /** A written hunk: the four numbers of its header, and its body. */
  datatype Hunk = Hunk(oldStart: nat, oldCount: nat, newStart: nat, newCount: nat, lines: seq<Edit>)

  /** The state of the weaving loop. */
  datatype Weaving = Weaving(done: seq<Hunk>, draft: Option<Draft>, prevOld: Option<nat>, prevNew: Option<nat>)

  function Next(no: Option<nat>): Option<nat> {
    if no.Some? then Some(no.value + 1) else None
  }

  function Or(a: Option<nat>, b: Option<nat>): Option<nat> {
    if a.Some? then a else b
  }

  /** An empty side starts after the last number seen on it, or at 0. */
  function Write(d: Draft): Hunk {
    var oldStart := Or(d.firstOld, Next(d.prevOld));
    var newStart := Or(d.firstNew, Next(d.prevNew));
    Hunk(if oldStart.Some? then oldStart.value else 0, d.oldCount,
         if newStart.Some? then newStart.value else 0, d.newCount, d.lines)
  }

  predicate Continues(w: Weaving, row: Op) {
    w.draft.Some? &&
    match row.edit.kind
    case Added => row.newNo == Next(w.prevNew) && (row.oldNo.None? || row.oldNo == w.prevOld)
    case Removed => row.oldNo == Next(w.prevOld) && (row.newNo.None? || row.newNo == w.prevNew)
    case Context => row.oldNo == Next(w.prevOld) && row.newNo == Next(w.prevNew)
  }

  function Flush(w: Weaving): seq<Hunk> {
    if w.draft.Some? then w.done + [Write(w.draft.value)] else w.done
  }

  function Extend(d: Draft, row: Op): Draft {
    Draft(d.lines + [row.edit], Or(d.firstOld, row.oldNo), Or(d.firstNew, row.newNo),
          d.oldCount + if row.oldNo.Some? then 1 else 0,
          d.newCount + if row.newNo.Some? then 1 else 0, d.prevOld, d.prevNew)
  }

  function Weave(w: Weaving, row: Op): Weaving {
    var fresh_ := Draft([], None, None, 0, 0, w.prevOld, w.prevNew);
    Weaving(if Continues(w, row) then w.done else Flush(w),
            Some(Extend(if Continues(w, row) then w.draft.value else fresh_, row)),
            Or(row.oldNo, w.prevOld), Or(row.newNo, w.prevNew))
  }

  const START := Weaving([], None, None, None)

  function WeaveAll(rows: seq<Op>): Weaving {
    if rows == [] then START
    else Weave(WeaveAll(rows[..|rows| - 1]), rows[|rows| - 1])
  }

  function HunksOf(rows: seq<Op>): seq<Hunk> {
    Flush(WeaveAll(rows))
  }

  method WeaveRows(rows: seq<Op>) returns (hunks: seq<Hunk>)
    ensures hunks == HunksOf(rows)
  {
    hunks := [];
    var draft: Option<Draft> := None;
    var prevOld: Option<nat>, prevNew: Option<nat> := None, None;
    for i := 0 to |rows|
      invariant Weaving(hunks, draft, prevOld, prevNew) == WeaveAll(rows[..i])
    {
      var row := rows[i];
      assert rows[..i + 1][..i] == rows[..i];
      ghost var was := Weaving(hunks, draft, prevOld, prevNew);
      assert WeaveAll(rows[..i + 1]) == Weave(was, row);
      if !Continues(Weaving(hunks, draft, prevOld, prevNew), row) {
        if draft.Some? {
          hunks := hunks + [Write(draft.value)];
        }
        draft := Some(Draft([], None, None, 0, 0, prevOld, prevNew));
      }
      var h := draft.value;
      h := h.(lines := h.lines + [row.edit]);
      if row.oldNo.Some? {
        h := h.(oldCount := h.oldCount + 1, firstOld := if h.firstOld.None? then row.oldNo else h.firstOld);
        prevOld := row.oldNo;
      }
      if row.newNo.Some? {
        h := h.(newCount := h.newCount + 1, firstNew := if h.firstNew.None? then row.newNo else h.firstNew);
        prevNew := row.newNo;
      }
      draft := Some(h);
    }
    assert rows[..|rows|] == rows;
    if draft.Some? {
      hunks := hunks + [Write(draft.value)];
    }
  }

  // ----- integrity of the hunks of any well-formed rows -----

  /** A row has the numbers of the sides its kind is on, and no other. */
  predicate WellFormed(row: Op) {
    (row.oldNo.None? <==> row.edit.kind.Added?) && (row.newNo.None? <==> row.edit.kind.Removed?)
  }

  function Edits(rows: seq<Op>): seq<Edit> {
    seq(|rows|, i requires 0 <= i < |rows| => rows[i].edit)
  }

  /** The hunk is exactly these rows: body, counts, and numbers consecutive from the header's. */
  ghost predicate IsHunkOf(h: Hunk, rows: seq<Op>) {
    && rows != [] && h.lines == Edits(rows)
    && h.oldCount == |OldSide(h.lines)| && h.newCount == |NewSide(h.lines)|
    && (forall j :: 0 <= j < |rows| ==>
          && rows[j].oldNo == (if rows[j].edit.kind.Added? then None
                               else Some(h.oldStart + |OldSide(h.lines[..j])|))
          && rows[j].newNo == (if rows[j].edit.kind.Removed? then None
                               else Some(h.newStart + |NewSide(h.lines[..j])|)))
  }

  /** The hunks are the rows cut into consecutive non-empty pieces, nothing left over. */
  ghost predicate AreHunksOf(hunks: seq<Hunk>, rows: seq<Op>) {
    if hunks == [] then rows == []
    else
      var n := |rows| - |hunks[|hunks| - 1].lines|;
      0 <= n && IsHunkOf(hunks[|hunks| - 1], rows[n..]) && AreHunksOf(hunks[..|hunks| - 1], rows[..n])
  }

  /** What the open draft knows about the rows woven into it. */
  ghost predicate DraftOf(w: Weaving, rows: seq<Op>) {
    w.draft.Some? &&
    var d := w.draft.value;
    && IsHunkOf(Write(d), rows)
    && (d.firstOld.None? ==> OldSide(d.lines) == [] && w.prevOld == d.prevOld)
    && (d.firstNew.None? ==> NewSide(d.lines) == [] && w.prevNew == d.prevNew)
    && (d.firstOld.Some? ==> w.prevOld == Some(d.firstOld.value + d.oldCount - 1))
    && (d.firstNew.Some? ==> w.prevNew == Some(d.firstNew.value + d.newCount - 1))
    && (d.firstOld.Some? <==> d.oldCount > 0)
    && (d.firstNew.Some? <==> d.newCount > 0)
  }

  lemma SnocCounts(s: seq<Edit>, e: Edit)
    ensures OldSide(s + [e]) == OldSide(s) + if e.kind.Added? then [] else [e.text]
    ensures NewSide(s + [e]) == NewSide(s) + if e.kind.Removed? then [] else [e.text]
  {
    SidesConcat(s, [e]);
    TextsOfOne(e, {Context, Removed});
    TextsOfOne(e, {Context, Added});
  }

  lemma HunkGrows(h: Hunk, g: Hunk, rows: seq<Op>, row: Op)
    requires IsHunkOf(h, rows) && WellFormed(row)
    requires g.lines == h.lines + [row.edit]
    requires g.oldCount == h.oldCount + if row.oldNo.Some? then 1 else 0
    requires g.newCount == h.newCount + if row.newNo.Some? then 1 else 0
    requires h.oldCount > 0 ==> g.oldStart == h.oldStart
    requires h.newCount > 0 ==> g.newStart == h.newStart
    requires row.oldNo.Some? ==> row.oldNo.value == g.oldStart + h.oldCount
    requires row.newNo.Some? ==> row.newNo.value == g.newStart + h.newCount
    ensures IsHunkOf(g, rows + [row])
  {
    SnocCounts(h.lines, row.edit);
    var all := rows + [row];
    assert g.lines == Edits(all);
    assert g.lines[..|rows|] == h.lines;
    forall j | 0 <= j < |rows| ensures g.lines[..j] == h.lines[..j] {
    }
    forall j | 0 <= j < |rows| && !rows[j].edit.kind.Added? ensures g.oldStart == h.oldStart {
      RowCounts(h.lines, j);
    }
    forall j | 0 <= j < |rows| && !rows[j].edit.kind.Removed? ensures g.newStart == h.newStart {
      RowCounts(h.lines, j);
    }
  }

  lemma RowCounts(s: seq<Edit>, j: nat)
    requires j < |s|
    ensures !s[j].kind.Added? ==> |OldSide(s[..j])| < |OldSide(s)|
    ensures !s[j].kind.Removed? ==> |NewSide(s[..j])| < |NewSide(s)|
  {
    assert s == s[..j] + [s[j]] + s[j + 1..];
    SidesConcat(s[..j] + [s[j]], s[j + 1..]);
    SnocCounts(s[..j], s[j]);
  }

  lemma DraftGrows(w: Weaving, rows: seq<Op>, row: Op)
    requires DraftOf(w, rows) && WellFormed(row) && Continues(w, row)
    ensures DraftOf(Weave(w, row), rows + [row])
  {
    var d := w.draft.value;
    SnocCounts(d.lines, row.edit);
    HunkGrows(Write(d), Write(Extend(d, row)), rows, row);
  }

  lemma DraftOpens(w: Weaving, row: Op)
    requires WellFormed(row) && !Continues(w, row)
    ensures DraftOf(Weave(w, row), [row])
  {
    var lines := [] + [row.edit];
    SnocCounts([], row.edit);
    assert lines == Edits([row]);
    assert lines[..0] == [];
  }

  /** What is written so far covers `rows[..n]`, and the draft the rest. */
  ghost predicate WovenTo(w: Weaving, rows: seq<Op>, n: nat) {
    && n <= |rows| && AreHunksOf(w.done, rows[..n])
    && (rows == [] ==> w.draft.None?)
    && (rows != [] ==> DraftOf(w, rows[n..]))
  }

  lemma RowContinues(w: Weaving, front: seq<Op>, row: Op, n: nat)
    requires WovenTo(w, front, n) && WellFormed(row) && Continues(w, row)
    ensures WovenTo(Weave(w, row), front + [row], n)
  {
    DraftGrows(w, front[n..], row);
    assert front[n..] + [row] == (front + [row])[n..] && front[..n] == (front + [row])[..n];
  }

  lemma RowOpens(w: Weaving, front: seq<Op>, row: Op, n: nat)
    requires WovenTo(w, front, n) && WellFormed(row) && !Continues(w, row)
    ensures WovenTo(Weave(w, row), front + [row], |front|)
  {
    DraftOpens(w, row);
    if front != [] {
      FlushIsHunks(w, front, n);
    } else {
      assert front[..n] == front;
    }
    assert (front + [row])[..|front|] == front && (front + [row])[|front|..] == [row];
  }

  /** Cut after `n` rows: what is written so far, and the draft on the rest. */
  lemma {:induction false} WeavingInvariant(rows: seq<Op>) returns (n: nat)
    requires forall i :: 0 <= i < |rows| ==> WellFormed(rows[i])
    ensures WovenTo(WeaveAll(rows), rows, n)
  {
    n := 0;
    if rows != [] {
      var front, row := rows[..|rows| - 1], rows[|rows| - 1];
      assert front + [row] == rows;
      n := WeavingInvariant(front);
      if Continues(WeaveAll(front), row) {
        RowContinues(WeaveAll(front), front, row, n);
      } else {
        RowOpens(WeaveAll(front), front, row, n);
        n := |front|;
      }
    }
  }

  lemma HunksSnoc(done: seq<Hunk>, h: Hunk, rows: seq<Op>, n: nat)
    requires n <= |rows| && AreHunksOf(done, rows[..n])
    requires |h.lines| == |rows| - n
    requires IsHunkOf(h, rows[n..])
    ensures AreHunksOf(done + [h], rows)
  {
    assert (done + [h])[..|done|] == done;
  }

  lemma FlushIsHunks(w: Weaving, rows: seq<Op>, n: nat)
    requires n <= |rows| && AreHunksOf(w.done, rows[..n]) && DraftOf(w, rows[n..])
    ensures AreHunksOf(Flush(w), rows)
  {
    HunksSnoc(w.done, Write(w.draft.value), rows, n);
  }

  /** For any well-formed rows the hunks are the rows, in order, with honest headers. */
  lemma HunkIntegrity(rows: seq<Op>)
    requires forall i :: 0 <= i < |rows| ==> WellFormed(rows[i])
    ensures AreHunksOf(HunksOf(rows), rows)
  {
    var n := WeavingInvariant(rows);
    if rows != [] {
      FlushIsHunks(WeaveAll(rows), rows, n);
    } else {
      assert rows[..n] == rows;
    }
  }

  // ----- where a side without rows starts -----

  /** The last number on the old, or on the new side of the rows. */
  function LastNo(rows: seq<Op>, oldSide: bool): Option<nat> {
    if rows == [] then None
    else
      var row := rows[|rows| - 1];
      var no := if oldSide then row.oldNo else row.newNo;
      if no.Some? then no else LastNo(rows[..|rows| - 1], oldSide)
  }

  /** An empty side starts at 0 when no row before has a number on it, and behind the last such number otherwise. */
  ghost predicate EmptyStart(start: nat, count: nat, last: Option<nat>) {
    count == 0 ==> start == if last.None? then 0 else last.value + 1
  }

  /** So do both sides of every hunk, seen from the rows before it. */
  ghost predicate EmptyStarts(hunks: seq<Hunk>, rows: seq<Op>) {
    hunks == [] ||
    (var h, n := hunks[|hunks| - 1], |rows| - |hunks[|hunks| - 1].lines|;
     && 0 <= n
     && EmptyStart(h.oldStart, h.oldCount, LastNo(rows[..n], true))
     && EmptyStart(h.newStart, h.newCount, LastNo(rows[..n], false))
     && EmptyStarts(hunks[..|hunks| - 1], rows[..n]))
  }

  /** What the loop knows: the last numbers, and those from before its draft. */
  ghost predicate KnowsLast(w: Weaving, rows: seq<Op>) {
    && w.prevOld == LastNo(rows, true) && w.prevNew == LastNo(rows, false)
    && (w.draft.None? ==> w.done == [] && rows == [])
    && (w.draft.Some? ==>
          var d, n := w.draft.value, |rows| - |w.draft.value.lines|;
          && 0 <= n && d.prevOld == LastNo(rows[..n], true) && d.prevNew == LastNo(rows[..n], false)
          && (d.firstOld.None? <==> d.oldCount == 0) && (d.firstNew.None? <==> d.newCount == 0)
          && EmptyStarts(w.done, rows[..n]))
  }

  lemma FlushStarts(w: Weaving, rows: seq<Op>)
    requires KnowsLast(w, rows)
    ensures EmptyStarts(Flush(w), rows)
  {
    if w.draft.Some? {
      assert Flush(w)[..|w.done|] == w.done;
    }
  }

  lemma StillKnowsLast(w: Weaving, front: seq<Op>, row: Op)
    requires KnowsLast(w, front)
    ensures KnowsLast(Weave(w, row), front + [row])
  {
    hide Continues, EmptyStarts;
    var rows := front + [row];
    assert rows[..|front|] == front;
    if Continues(w, row) {
      DraftIsOpen(w, row);
      var n := |front| - |w.draft.value.lines|;
      assert rows[..n] == front[..n];
    } else {
      FlushStarts(w, front);
    }
  }

  lemma DraftIsOpen(w: Weaving, row: Op)
    requires Continues(w, row)
    ensures w.draft.Some?
  {
  }

  lemma {:induction false} WeavingKnowsLast(rows: seq<Op>)
    ensures KnowsLast(WeaveAll(rows), rows)
  {
    if rows != [] {
      var front := rows[..|rows| - 1];
      WeavingKnowsLast(front);
      StillKnowsLast(WeaveAll(front), front, rows[|rows| - 1]);
      assert front + [rows[|rows| - 1]] == rows;
    } else {
      assert EmptyStarts([], rows);
    }
  }

  /**
   For any rows, in every hunk a side without lines starts at 0 when no row before the
   hunk has a number on that side, and otherwise at the last such number plus one.
   */
  lemma EmptySidesStart(rows: seq<Op>)
    ensures EmptyStarts(HunksOf(rows), rows)
  {
    hide EmptyStarts;
    WeavingKnowsLast(rows);
    FlushStarts(WeaveAll(rows), rows);
  }
}
