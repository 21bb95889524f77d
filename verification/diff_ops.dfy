/**
 `diff_ops` of `agent_diff.rs`: trim what the two line lists share at either
 end, align the middles, and number the script on both sides. The script spells
 both texts for every input; it is a smallest one exactly when the trimmed
 middles fit the table or share no line.
 */
module DiffOps {
  import opened Basics
  import opened LineDiff

  // ----- trimming -----

  function CommonPrefix<T(==)>(a: seq<T>, b: seq<T>): (n: nat)
    ensures n <= |a| && n <= |b| && a[..n] == b[..n]
    ensures n < |a| && n < |b| ==> a[n] != b[n]
  {
    if a == [] || b == [] || a[0] != b[0] then 0
    else
      var n := CommonPrefix(a[1..], b[1..]);
      assert a[..n + 1] == [a[0]] + a[1..][..n] && b[..n + 1] == [b[0]] + b[1..][..n];
      n + 1
  }

  function CommonSuffix<T(==)>(a: seq<T>, b: seq<T>): (n: nat)
    ensures n <= |a| && n <= |b|
    ensures forall i :: |a| - n <= i < |a| ==> a[i] == b[i - |a| + |b|]
    ensures n < |a| && n < |b| ==> a[|a| - 1 - n] != b[|b| - 1 - n]
  {
    if a == [] || b == [] || a[|a| - 1] != b[|b| - 1] then 0
    else 1 + CommonSuffix(a[..|a| - 1], b[..|b| - 1])
  }

  /** The two line lists cut into what they share at either end and their middles. */
  datatype Trimmed<T> = Trimmed(prefix: seq<T>, midOld: seq<T>, midNew: seq<T>, suffix: seq<T>)

  function Cut<T>(before: seq<T>, after: seq<T>, prefix: nat, suffix: nat): Trimmed<T>
    requires prefix + suffix <= |before| && prefix + suffix <= |after|
  {
    Trimmed(before[..prefix], before[prefix..|before| - suffix],
            after[prefix..|after| - suffix], before[|before| - suffix..])
  }

  function Trim<T(==)>(before: seq<T>, after: seq<T>): Trimmed<T> {
    var p := CommonPrefix(before, after);
    Cut(before, after, p, CommonSuffix(before[p..], after[p..]))
  }

  lemma CutParts<T>(s: seq<T>, p: nat, q: nat)
    requires p + q <= |s|
    ensures s == s[..p] + s[p..|s| - q] + s[|s| - q..]
    ensures s[p..][|s| - p - q..] == s[|s| - q..]
    ensures s[p..][..|s| - p - q] == s[p..|s| - q]
  {
  }

  lemma SharedSuffix<T>(a: seq<T>, b: seq<T>)
    ensures a[|a| - CommonSuffix(a, b)..] == b[|b| - CommonSuffix(a, b)..]
  {
  }

  /** Cut at a shared front and a shared end, both lists are their parts. */
  lemma CutSpells<T>(before: seq<T>, after: seq<T>, p: nat, q: nat)
    requires p + q <= |before| && p + q <= |after| && before[..p] == after[..p]
    requires before[p..][|before| - p - q..] == after[p..][|after| - p - q..]
    ensures var t := Cut(before, after, p, q);
            before == t.prefix + t.midOld + t.suffix && after == t.prefix + t.midNew + t.suffix
  {
    CutParts(before, p, q);
    CutParts(after, p, q);
  }

  lemma TrimParts<T>(before: seq<T>, after: seq<T>)
    ensures var t := Trim(before, after);
            before == t.prefix + t.midOld + t.suffix && after == t.prefix + t.midNew + t.suffix
  {
    hide CommonPrefix, CommonSuffix, Cut;
    var p := CommonPrefix(before, after);
    var q := CommonSuffix(before[p..], after[p..]);
    SharedSuffix(before[p..], after[p..]);
    CutSpells(before, after, p, q);
  }

  ghost function Untrim(t: Trimmed<string>): seq<Edit> {
    Tag(Context, t.prefix) + Align(t.midOld, t.midNew) + Tag(Context, t.suffix)
  }

  ghost function Script(before: seq<string>, after: seq<string>): seq<Edit> {
    Untrim(Trim(before, after))
  }

  // ----- what the script is -----

  lemma ScriptParts(before: seq<string>, after: seq<string>)
    ensures OldSide(Script(before, after)) == before
    ensures NewSide(Script(before, after)) == after
    ensures var t := Trim(before, after);
            |Kept(Script(before, after))| ==
            |t.prefix| + |Kept(Align(t.midOld, t.midNew))| + |t.suffix|
  {
    var t := Trim(before, after);
    TrimParts(before, after);
    var head, mid, tail := Tag(Context, t.prefix), Align(t.midOld, t.midNew), Tag(Context, t.suffix);
    SidesConcat(head + mid, tail);
    SidesConcat(head, mid);
    TagSides(Context, t.prefix);
    TagSides(Context, t.suffix);
    AlignSpells(t.midOld, t.midNew);
  }

  /** For all texts, also beyond the table limit, the script spells both texts. */
  lemma ScriptSpells(before: string, after: string)
    ensures OldSide(Script(Lines(before), Lines(after))) == Lines(before)
    ensures NewSide(Script(Lines(before), Lines(after))) == Lines(after)
    ensures var s := Script(Lines(before), Lines(after));
            CountKind(s, Added) - CountKind(s, Removed) == |Lines(after)| - |Lines(before)|
  {
    ScriptParts(Lines(before), Lines(after));
    ScriptBalance(Script(Lines(before), Lines(after)));
  }

  /** Trimming loses nothing: the answer is the middles' plus both ends. */
  lemma LcsTrim(before: seq<string>, after: seq<string>)
    ensures var t := Trim(before, after);
            Lcs(before, after) == |t.prefix| + Lcs(t.midOld, t.midNew) + |t.suffix|
  {
    var t := Trim(before, after);
    TrimParts(before, after);
    LcsCommonSuffix(t.prefix + t.midOld, t.prefix + t.midNew, t.suffix);
    LcsCommonPrefix(t.prefix, t.midOld, t.midNew);
  }

  ghost predicate ShareNoLine(a: seq<string>, b: seq<string>) {
    forall x :: x in a ==> x !in b
  }

  lemma {:induction false} SharedLineIsCommon(x: string, a: seq<string>)
    ensures x in a <==> Subsequence([x], a)
  {
    if a != [] {
      SharedLineIsCommon(x, a[1..]);
      assert [x][1..] == [];
    }
  }

  /** Lists with no line in common, and only those, have nothing to keep. */
  lemma LcsZero(a: seq<string>, b: seq<string>)
    ensures Lcs(a, b) == 0 <==> ShareNoLine(a, b)
  {
    if !ShareNoLine(a, b) {
      var x :| x in a && x in b;
      SharedLineIsCommon(x, a);
      SharedLineIsCommon(x, b);
      LcsUpper([x], a, b);
    } else {
      WalkSpells(a, b);
      var kept := Kept(Walk(a, b));
      KeptIsCommon(Walk(a, b));
      if kept != [] {
        SubsequenceHead(kept, a);
        SubsequenceHead(kept, b);
      }
    }
  }

  lemma {:induction false} SubsequenceHead(s: seq<string>, a: seq<string>)
    requires s != [] && Subsequence(s, a)
    ensures s[0] in a
  {
    if s[0] != a[0] {
      SubsequenceHead(s, a[1..]);
    }
  }

  /** The script keeps as much as possible exactly when its middles fit the table or share no line. */
  lemma DiffOptimalIff(before: seq<string>, after: seq<string>)
    ensures var t := Trim(before, after);
            |Kept(Script(before, after))| == Lcs(before, after) <==>
            TableFits(t.midOld, t.midNew) || ShareNoLine(t.midOld, t.midNew)
  {
    hide Lcs, Kept, Script, Align, TableFits, ShareNoLine;
    var t := Trim(before, after);
    ScriptParts(before, after);
    LcsTrim(before, after);
    AlignSpells(t.midOld, t.midNew);
    LcsZero(t.midOld, t.midNew);
  }

  function Cost(s: seq<Edit>): nat {
    CountKind(s, Added) + CountKind(s, Removed)
  }

  ghost predicate Relates(s: seq<Edit>, before: seq<string>, after: seq<string>) {
    OldSide(s) == before && NewSide(s) == after
  }

  /** No script that relates the two texts has fewer added and removed lines. */
  ghost predicate Minimal(s: seq<Edit>, before: seq<string>, after: seq<string>) {
    forall other :: Relates(other, before, after) ==> Cost(s) <= Cost(other)
  }

  lemma CostOf(s: seq<Edit>)
    ensures Cost(s) == |OldSide(s)| + |NewSide(s)| - 2 * |Kept(s)|
    ensures |Kept(s)| <= Lcs(OldSide(s), NewSide(s))
  {
    ScriptBalance(s);
    KeptIsCommon(s);
    LcsUpper(Kept(s), OldSide(s), NewSide(s));
  }

  /** The script is a smallest one exactly when its middles fit the table or share no line. */
  lemma DiffMinimalIff(before: seq<string>, after: seq<string>)
    ensures var t := Trim(before, after);
            Minimal(Script(before, after), before, after) <==>
            TableFits(t.midOld, t.midNew) || ShareNoLine(t.midOld, t.midNew)
  {
    var s, best := Script(before, after), Walk(before, after);
    DiffOptimalIff(before, after);
    ScriptParts(before, after);
    WalkSpells(before, after);
    CostOf(s);
    CostOf(best);
    assert Relates(best, before, after);
    if |Kept(s)| == Lcs(before, after) {
      forall other | Relates(other, before, after) ensures Cost(s) <= Cost(other) {
        CostOf(other);
      }
    }
  }

  /** Nothing to trim: the texts differ in their first and in their last line. */
  lemma NothingTrimmed(before: seq<string>, after: seq<string>)
    requires before != [] && after != []
    requires before[0] != after[0] && before[|before| - 1] != after[|after| - 1]
    ensures Trim(before, after).midOld == before && Trim(before, after).midNew == after
  {
    assert CommonPrefix(before, after) == 0;
    assert before[0..] == before && after[0..] == after;
    assert CommonSuffix(before, after) == 0;
  }

  /** One line between n times another one on either side. */
  function Flanked(line: string, mid: string, n: nat): (lines: seq<string>)
    ensures |lines| == 2 * n + 1
  {
    seq(n, _ => line) + [mid] + seq(n, _ => line)
  }

  lemma FlankedLines(line: string, mid: string, n: nat)
    requires n > 0
    ensures var lines := Flanked(line, mid, n);
            lines != [] && lines[0] == line && lines[|lines| - 1] == line && mid in lines
  {
    var lines := Flanked(line, mid, n);
    assert lines[n] == mid;
  }

  lemma TooLarge(a: seq<string>, b: seq<string>, n: nat)
    requires n >= 250 && |a| == 2 * n + 1 && |b| == 2 * n + 1
    ensures !TableFits(a, b)
  {
    assert |a| * |b| >= 501 * |b| >= 501 * 501;
  }

  /**
   Beyond the table limit the script can miss a shared line: two texts of 501 or more
   lines that differ everywhere but in their middle line.
   */
  lemma FallbackMissesSharedLine(a: string, b: string, shared: string, n: nat)
    requires n >= 250 && a != b
    ensures var before, after := Flanked(a, shared, n), Flanked(b, shared, n);
            |Kept(Script(before, after))| < Lcs(before, after)
  {
    hide Flanked, Kept, Script, Lcs, TableFits;
    var before, after := Flanked(a, shared, n), Flanked(b, shared, n);
    FlankedLines(a, shared, n);
    FlankedLines(b, shared, n);
    TooLarge(before, after, n);
    NothingTrimmed(before, after);
    FallbackKeepsNothing(before, after, shared);
  }

  lemma FallbackKeepsNothing(before: seq<string>, after: seq<string>, x: string)
    requires x in before && x in after && !TableFits(before, after)
    requires Trim(before, after).midOld == before && Trim(before, after).midNew == after
    ensures |Kept(Script(before, after))| < Lcs(before, after)
  {
    LcsZero(before, after);
    ScriptParts(before, after);
    LcsTrim(before, after);
    AlignSpells(before, after);
  }

  // ----- the order of a change -----

  lemma ContextAround(head: seq<string>, mid: seq<Edit>, tail: seq<string>)
    requires Ordered(mid)
    ensures Ordered(Tag(Context, head) + mid + Tag(Context, tail))
  {
    var s := Tag(Context, head) + mid + Tag(Context, tail);
    forall i | 0 < i < |s| ensures !(s[i - 1].kind.Added? && s[i].kind.Removed?) {
      if |head| < i < |head| + |mid| {
        assert s[i] == mid[i - |head|] && s[i - 1] == mid[i - |head| - 1];
      }
    }
  }

  lemma {:induction false} KeptBetween(s: seq<Edit>, i: nat, j: nat)
    requires Ordered(s) && i < j < |s| && s[i].kind.Added? && s[j].kind.Removed?
    ensures exists k :: i < k < j && s[k].kind.Context?
    decreases j - i
  {
    if s[j - 1].kind.Removed? {
      KeptBetween(s, i, j - 1);
    }
  }

  /**
   For all texts, also beyond the table limit, a change is written with its removed
   lines first: between an added line and a later removed one a line is kept.
   */
  lemma RemovedComesFirst(before: seq<string>, after: seq<string>, i: nat, j: nat)
    requires i < j < |Script(before, after)|
    requires Script(before, after)[i].kind.Added? && Script(before, after)[j].kind.Removed?
    ensures exists k :: i < k < j && Script(before, after)[k].kind.Context?
  {
    hide Align, Trim;
    var t := Trim(before, after);
    AlignOrdered(t.midOld, t.midNew);
    ContextAround(t.prefix, Align(t.midOld, t.midNew), t.suffix);
    KeptBetween(Script(before, after), i, j);
  }

  // ----- numbering -----

  /** The line number, if any, that edit `i` carries on the before side. */
  ghost function OldNo(s: seq<Edit>, i: nat): Option<nat>
    requires i < |s|
  {
    if s[i].kind.Added? then None else Some(|OldSide(s[..i])| + 1)
  }

  ghost function NewNo(s: seq<Edit>, i: nat): Option<nat>
    requires i < |s|
  {
    if s[i].kind.Removed? then None else Some(|NewSide(s[..i])| + 1)
  }

  ghost function Number(s: seq<Edit>): (ops: seq<Op>)
    ensures |ops| == |s|
  {
    seq(|s|, i requires 0 <= i < |s| => Op(OldNo(s, i), NewNo(s, i), s[i]))
  }

  lemma NumberSnoc(s: seq<Edit>, e: Edit)
    ensures Number(s + [e]) ==
            Number(s) + [Op(if e.kind.Added? then None else Some(|OldSide(s)| + 1),
                            if e.kind.Removed? then None else Some(|NewSide(s)| + 1), e)]
    ensures |OldSide(s + [e])| == |OldSide(s)| + if e.kind.Added? then 0 else 1
    ensures |NewSide(s + [e])| == |NewSide(s)| + if e.kind.Removed? then 0 else 1
    ensures CountKind(s + [e], Added) == CountKind(s, Added) + if e.kind.Added? then 1 else 0
    ensures CountKind(s + [e], Removed) == CountKind(s, Removed) + if e.kind.Removed? then 1 else 0
  {
    var t := s + [e];
    forall i | 0 <= i < |s| ensures t[..i] == s[..i] {
    }
    assert t[..|s|] == s;
    SidesConcat(s, [e]);
    TextsOfOne(e, {Context, Removed});
    TextsOfOne(e, {Context, Added});
    TextsOfOne(e, {Added});
    TextsOfOne(e, {Removed});
    TextsConcat(s, [e], {Added});
    TextsConcat(s, [e], {Removed});
  }

  /** Every number points at the edit's own line on its own side. */
  lemma NumbersPointAtLines(s: seq<Edit>, i: nat)
    requires i < |s|
    ensures var op := Number(s)[i];
            && (op.oldNo.Some? <==> !s[i].kind.Added?)
            && (op.newNo.Some? <==> !s[i].kind.Removed?)
            && (op.oldNo.Some? ==> 1 <= op.oldNo.value <= |OldSide(s)| &&
                                   OldSide(s)[op.oldNo.value - 1] == s[i].text)
            && (op.newNo.Some? ==> 1 <= op.newNo.value <= |NewSide(s)| &&
                                   NewSide(s)[op.newNo.value - 1] == s[i].text)
  {
    assert s == s[..i] + ([s[i]] + s[i + 1..]);
    SidesConcat(s[..i], [s[i]] + s[i + 1..]);
    SidesConcat([s[i]], s[i + 1..]);
  }

  /** The numbers present on one side, in order. */
  ghost function Numbers(ops: seq<Op>, oldSide: bool): seq<nat> {
    if ops == [] then []
    else
      var op := ops[|ops| - 1];
      var no := if oldSide then op.oldNo else op.newNo;
      Numbers(ops[..|ops| - 1], oldSide) + if no.Some? then [no.value] else []
  }

  lemma NumbersSnoc(ops: seq<Op>, op: Op, oldSide: bool)
    ensures var no := if oldSide then op.oldNo else op.newNo;
            Numbers(ops + [op], oldSide) == Numbers(ops, oldSide) + if no.Some? then [no.value] else []
  {
    assert (ops + [op])[..|ops|] == ops;
  }

  /** 1, 2, ..., n */
  function UpTo(n: nat): seq<nat> {
    seq(n, i => i + 1)
  }

  lemma UpToSnoc(n: nat)
    ensures UpTo(n) + [n + 1] == UpTo(n + 1) && UpTo(0) == []
  {
  }

  /** They run 1, 2, ... up to the number of lines of that side. */
  lemma {:induction false} NumbersRun(s: seq<Edit>)
    ensures Numbers(Number(s), true) == UpTo(|OldSide(s)|)
    ensures Numbers(Number(s), false) == UpTo(|NewSide(s)|)
  {
    hide OldSide, NewSide, Number, Numbers, UpTo;
    if s == [] {
      NoNumbers();
    } else {
      var front, e := s[..|s| - 1], s[|s| - 1];
      assert s == front + [e];
      NumbersRun(front);
      NumberSnoc(front, e);
      var op := Op(if e.kind.Added? then None else Some(|OldSide(front)| + 1),
                   if e.kind.Removed? then None else Some(|NewSide(front)| + 1), e);
      NumbersSnoc(Number(front), op, true);
      NumbersSnoc(Number(front), op, false);
      UpToSnoc(|OldSide(front)|);
      UpToSnoc(|NewSide(front)|);
    }
  }

  lemma NoNumbers()
    ensures Numbers(Number([]), true) == UpTo(|OldSide([])|) && Numbers(Number([]), false) == UpTo(|NewSide([])|)
  {
  }

  // ----- the loops -----

  lemma PrefixStep<T>(a: seq<T>, b: seq<T>, n: nat)
    requires n < |a| && n < |b|
    ensures CommonPrefix(a[n..], b[n..]) == if a[n] == b[n] then 1 + CommonPrefix(a[n + 1..], b[n + 1..]) else 0
  {
    assert a[n..][1..] == a[n + 1..] && b[n..][1..] == b[n + 1..];
  }

  lemma SuffixUnique<T>(a: seq<T>, b: seq<T>, n: nat)
    requires n <= |a| && n <= |b|
    requires forall i :: |a| - n <= i < |a| ==> a[i] == b[i - |a| + |b|]
    requires n < |a| && n < |b| ==> a[|a| - 1 - n] != b[|b| - 1 - n]
    ensures n == CommonSuffix(a, b)
  {
  }

  method TrimLoops<T(==)>(before: seq<T>, after: seq<T>) returns (prefix: nat, suffix: nat)
    ensures prefix + suffix <= |before| && prefix + suffix <= |after|
    ensures Trim(before, after) == Cut(before, after, prefix, suffix)
  {
    prefix := 0;
    ghost var left := CommonPrefix(before, after);
    assert before[0..] == before && after[0..] == after;
    while prefix < |before| && prefix < |after| && before[prefix] == after[prefix]
      invariant 0 <= prefix <= |before| && prefix <= |after|
      invariant left == CommonPrefix(before[prefix..], after[prefix..])
      invariant prefix + left == CommonPrefix(before, after)
    {
      PrefixStep(before, after, prefix);
      prefix, left := prefix + 1, left - 1;
    }
    if prefix < |before| && prefix < |after| {
      PrefixStep(before, after, prefix);
    }
    assert prefix == CommonPrefix(before, after);
    suffix := SuffixLoop(before, after, prefix);
  }

  method SuffixLoop<T(==)>(before: seq<T>, after: seq<T>, prefix: nat) returns (suffix: nat)
    requires prefix <= |before| && prefix <= |after|
    ensures suffix == CommonSuffix(before[prefix..], after[prefix..])
  {
    suffix := 0;
    while suffix < |before| - prefix && suffix < |after| - prefix
          && before[|before| - 1 - suffix] == after[|after| - 1 - suffix]
      invariant 0 <= suffix <= |before| - prefix && suffix <= |after| - prefix
      invariant forall i :: |before| - suffix <= i < |before| ==> before[i] == after[i - |before| + |after|]
    {
      suffix := suffix + 1;
    }
    SuffixUnique(before[prefix..], after[prefix..], suffix);
  }

  /** The running numbers and totals of the numbering loop after the edits `done`. */
  ghost predicate Counters(done: seq<Edit>, ops: seq<Op>, oldNo: nat, newNo: nat, added: nat, removed: nat) {
    && ops == Number(done)
    && oldNo == |OldSide(done)| + 1 && newNo == |NewSide(done)| + 1
    && added == CountKind(done, Added) && removed == CountKind(done, Removed)
  }

  method PushEdits(edits: seq<Edit>, ops0: seq<Op>, oldNo0: nat, newNo0: nat, added0: nat, removed0: nat,
                   ghost done: seq<Edit>)
    returns (ops: seq<Op>, oldNo: nat, newNo: nat, added: nat, removed: nat)
    requires Counters(done, ops0, oldNo0, newNo0, added0, removed0)
    ensures Counters(done + edits, ops, oldNo, newNo, added, removed)
  {
    ops, oldNo, newNo, added, removed := ops0, oldNo0, newNo0, added0, removed0;
    assert done + edits[..0] == done;
    for i := 0 to |edits|
      invariant Counters(done + edits[..i], ops, oldNo, newNo, added, removed)
    {
      var e := edits[i];
      assert done + edits[..i] + [e] == done + edits[..i + 1];
      NumberSnoc(done + edits[..i], e);
      match e.kind {
        case Context =>
          ops := ops + [Op(Some(oldNo), Some(newNo), e)];
          oldNo, newNo := oldNo + 1, newNo + 1;
        case Removed =>
          ops := ops + [Op(Some(oldNo), None, e)];
          oldNo, removed := oldNo + 1, removed + 1;
        case Added =>
          ops := ops + [Op(None, Some(newNo), e)];
          newNo, added := newNo + 1, added + 1;
      }
    }
    assert edits[..|edits|] == edits;
  }

  method NumberTrimmed(t: Trimmed<string>)
    returns (ops: seq<Op>, ghost oldNo: nat, ghost newNo: nat, added: nat, removed: nat)
    ensures Counters(Untrim(t), ops, oldNo, newNo, added, removed)
  {
    var head, tail := Tag(Context, t.prefix), Tag(Context, t.suffix);
    var mid := AlignMid(t.midOld, t.midNew);
    assert [] + head == head;
    var o, n;
    ops, o, n, added, removed := PushEdits(head, [], 1, 1, 0, 0, []);
    ops, o, n, added, removed := PushEdits(mid, ops, o, n, added, removed, head);
    ops, o, n, added, removed := PushEdits(tail, ops, o, n, added, removed, head + mid);
    oldNo, newNo := o, n;
  }

  method DiffTexts(before: string, after: string) returns (ops: seq<Op>, added: nat, removed: nat)
    ensures var s := Script(Lines(before), Lines(after));
            ops == Number(s) && added == CountKind(s, Added) && removed == CountKind(s, Removed)
  {
    var oldLines, newLines := Lines(before), Lines(after);
    var prefix, suffix := TrimLoops(oldLines, newLines);
    ghost var oldNo, newNo;
    ops, oldNo, newNo, added, removed := NumberTrimmed(Cut(oldLines, newLines, prefix, suffix));
  }
}
