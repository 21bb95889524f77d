/**
 The runtime history of `history.rs`: bounded recording, tool declarations, and
 compaction at a place that parts no tool call from its observations.
 */
module History {
  import opened Basics
  import opened FencedBlocks

  const DEFAULT_MAX_ITEMS: nat := 200
  const DEFAULT_MAX_OBSERVATION_BYTES: nat := 4096

  datatype HistoryItem =
    | User(text: string, images: nat)
    | Assistant(text: string)
    | AssistantWithReasoning(text: string, reasoning: string)
    | System(text: string)
    | ContextSummary(text: string, originalItems: nat)
    | ToolCall(callId: string)
    | Observation(callId: string)
    | ToolsDeclared(names: seq<string>)

  // ----- where a history may be cut -----

  /** The second item belongs to the same group as the first: a call, its observations, the reasoning before. */
  predicate Bound(a: HistoryItem, b: HistoryItem) {
    || (a.ToolCall? && (b.ToolCall? || b.Observation?))
    || (a.Observation? && b.Observation?)
    || (a.AssistantWithReasoning? && (b.ToolCall? || b.Observation?))
  }

  predicate LegalCut(items: seq<HistoryItem>, i: nat)
    requires i <= |items|
  {
    i == 0 || i == |items| || !Bound(items[i - 1], items[i])
  }

  /** The largest legal cut at or below `split`. */
  function CutBelow(items: seq<HistoryItem>, split: nat): (k: nat)
    requires split <= |items|
    ensures k <= split && LegalCut(items, k)
    ensures forall i :: k < i <= split ==> !LegalCut(items, i)
  {
    if LegalCut(items, split) then split else CutBelow(items, split - 1)
  }

  /** At most `keep` items stay, at least one item stays, and something is cut off. */
  function SplitIndex(items: seq<HistoryItem>, keep: nat): Option<nat> {
    if |items| <= 1 then None
    else
      var split := CutBelow(items, |items| - Min(Max(keep, 1), |items| - 1));
      if split > 0 then Some(split) else None
  }

  function Compacted(items: seq<HistoryItem>, summary: string, keep: nat): seq<HistoryItem> {
    var split := SplitIndex(items, keep);
    if Trim(summary) == "" || split.None? then items
    else [ContextSummary(summary, split.value)] + items[split.value..]
  }

  // ----- tool declarations -----

  /** The declared name lists, oldest first. */
  function Declarations(items: seq<HistoryItem>): seq<seq<string>> {
    if items == [] then []
    else
      var last := items[|items| - 1];
      Declarations(items[..|items| - 1]) + if last.ToolsDeclared? then [last.names] else []
  }

  function LastDeclared(items: seq<HistoryItem>): seq<string> {
    if items == [] then []
    else if items[|items| - 1].ToolsDeclared? then items[|items| - 1].names
    else LastDeclared(items[..|items| - 1])
  }

  /** No two declarations in a row say the same. */
  predicate DeclarationsDiffer(items: seq<HistoryItem>) {
    var d := Declarations(items);
    forall i :: 0 < i < |d| ==> d[i - 1] != d[i]
  }

  function Recorded(items: seq<HistoryItem>, item: HistoryItem, max: nat): seq<HistoryItem> {
    Last(items + [item], max)
  }

  function Declared(items: seq<HistoryItem>, names: seq<string>, max: nat): seq<HistoryItem> {
    if LastDeclared(items) == names then items else Recorded(items, ToolsDeclared(names), max)
  }

  class RuntimeHistory {
    var items: seq<HistoryItem>
    var maxItems: nat
    var maxObservationBytes: nat

    ghost predicate Valid()
      reads this
    {
      maxItems >= 1 && |items| <= maxItems
    }

    constructor ()
      ensures Valid() && items == [] && maxItems == DEFAULT_MAX_ITEMS
      ensures maxObservationBytes == DEFAULT_MAX_OBSERVATION_BYTES
    {
      items, maxItems, maxObservationBytes := [], DEFAULT_MAX_ITEMS, DEFAULT_MAX_OBSERVATION_BYTES;
    }

    constructor WithLimits(maxItems: nat, maxObservationBytes: nat)
      ensures Valid() && items == [] && this.maxItems == Max(maxItems, 1)
      ensures this.maxObservationBytes == maxObservationBytes
    {
      items := [];
      this.maxItems := Max(maxItems, 1);
      this.maxObservationBytes := maxObservationBytes;
    }

    constructor FromItems(restored: seq<HistoryItem>)
      ensures Valid() && items == Last(restored, DEFAULT_MAX_ITEMS) && maxItems == DEFAULT_MAX_ITEMS
      ensures maxObservationBytes == DEFAULT_MAX_OBSERVATION_BYTES
    {
      maxItems, maxObservationBytes := DEFAULT_MAX_ITEMS, DEFAULT_MAX_OBSERVATION_BYTES;
      items := if |restored| > DEFAULT_MAX_ITEMS then restored[|restored| - DEFAULT_MAX_ITEMS..] else restored;
    }

    method Record(item: HistoryItem)
      requires Valid()
      modifies this`items
      ensures Valid() && items == Recorded(old(items), item, maxItems)
    {
      items := items + [item];
      if |items| > maxItems {
        var overflow := |items| - maxItems;
        items := items[overflow..];
      }
    }

    method RecordAssistantWithReasoning(text: string, reasoning: string)
      requires Valid()
      modifies this`items
      ensures Valid()
      ensures items == Recorded(old(items), if reasoning == "" then Assistant(text)
                                            else AssistantWithReasoning(text, reasoning), maxItems)
    {
      if reasoning == "" {
        Record(Assistant(text));
      } else {
        Record(AssistantWithReasoning(text, reasoning));
      }
    }

    method RecordContextSummary(text: string, originalItems: nat)
      requires Valid()
      modifies this`items
      ensures Valid()
      ensures items == if Trim(text) == "" then old(items)
                       else Recorded(old(items), ContextSummary(text, originalItems), maxItems)
    {
      if Trim(text) == "" {
        return;
      }
      Record(ContextSummary(text, originalItems));
    }

    method LastDeclaredTools() returns (names: seq<string>)
      ensures names == LastDeclared(items)
    {
      var i := |items|;
      assert items[..i] == items;
      while i > 0
        invariant 0 <= i <= |items|
        invariant LastDeclared(items[..i]) == LastDeclared(items)
      {
        if items[i - 1].ToolsDeclared? {
          return items[i - 1].names;
        }
        assert items[..i][..i - 1] == items[..i - 1];
        i := i - 1;
      }
      return [];
    }

    method RecordToolsDeclared(names: seq<string>)
      requires Valid()
      modifies this`items
      ensures Valid() && items == Declared(old(items), names, maxItems)
    {
      var last := LastDeclaredTools();
      if last == names {
        return;
      }
      Record(ToolsDeclared(names));
    }

    method CompactionToolBoundary(split: nat) returns (index: nat)
      requires split <= |items|
      ensures index == CutBelow(items, split)
    {
      index := split;
      if index >= |items| {
        return;
      }
      if items[index].Observation? {
        while index > 0 && items[index - 1].Observation?
          invariant index <= split && items[index].Observation?
          invariant CutBelow(items, index) == CutBelow(items, split)
        {
          index := index - 1;
        }
        while index > 0 && items[index - 1].ToolCall?
          invariant index <= split && (items[index].ToolCall? || items[index].Observation?)
          invariant index > 0 && items[index - 1].Observation? ==> items[index].ToolCall?
          invariant CutBelow(items, index) == CutBelow(items, split)
        {
          index := index - 1;
        }
      } else if items[index].ToolCall? {
        while index > 0 && items[index - 1].ToolCall?
          invariant index <= split && items[index].ToolCall?
          invariant CutBelow(items, index) == CutBelow(items, split)
        {
          index := index - 1;
        }
      }
      if index > 0 && (items[index].ToolCall? || items[index].Observation?)
         && items[index - 1].AssistantWithReasoning? {
        index := index - 1;
      }
    }

    method CompactionSplitIndex(keepLastItems: nat) returns (split: Option<nat>)
      ensures split == SplitIndex(items, keepLastItems)
    {
      if |items| <= 1 {
        return None;
      }
      var keep := Min(Max(keepLastItems, 1), |items| - 1);
      var index := CompactionToolBoundary(|items| - keep);
      return if index > 0 then Some(index) else None;
    }

    method CompactionPrefix(keepLastItems: nat) returns (prefix: Option<seq<HistoryItem>>)
      ensures SplitIndex(items, keepLastItems).None? ==> prefix.None?
      ensures SplitIndex(items, keepLastItems).Some? ==>
                prefix == Some(items[..SplitIndex(items, keepLastItems).value])
    {
      var split := CompactionSplitIndex(keepLastItems);
      return if split.None? then None else Some(items[..split.value]);
    }

    method CompactOldItems(summary: string, keepLastItems: nat) returns (done: bool)
      requires Valid()
      modifies this`items
      ensures Valid() && items == Compacted(old(items), summary, keepLastItems)
      ensures done <==> Trim(summary) != "" && SplitIndex(old(items), keepLastItems).Some?
    {
      if Trim(summary) == "" {
        return false;
      }
      var split := CompactionSplitIndex(keepLastItems);
      if split.None? {
        return false;
      }
      var suffix := items[split.value..];
      items := [];
      items := items + [ContextSummary(summary, split.value)];
      items := items + suffix;
      return true;
    }
  }

  // ----- compaction -----

  ghost predicate AllCalls(items: seq<HistoryItem>, from: int, to: int) {
    0 <= from && to <= |items| && forall i :: from <= i < to ==> items[i].ToolCall?
  }

  ghost predicate AllObservations(items: seq<HistoryItem>, from: int, to: int) {
    0 <= from && to <= |items| && forall i :: from <= i < to ==> items[i].Observation?
  }

  /** What stands together: calls, perhaps behind one answer with reasoning, and then observations. */
  ghost predicate IsGroup(items: seq<HistoryItem>, a: int, m: int, c: int) {
    && 0 <= a <= m <= c <= |items| && AllObservations(items, m, c)
    && (AllCalls(items, a, m) || (a < m && items[a].AssistantWithReasoning? && AllCalls(items, a + 1, m)))
  }

  /** Index i is strictly inside of such a group. */
  ghost predicate Inside(items: seq<HistoryItem>, i: int) {
    exists a, m, c :: a < i < c && IsGroup(items, a, m, c)
  }

  /** A cut is refused if and only if it is strictly inside of a group. */
  lemma RefusedIffInside(items: seq<HistoryItem>, i: nat)
    requires 0 < i < |items|
    ensures !LegalCut(items, i) <==> Inside(items, i)
  {
    if Bound(items[i - 1], items[i]) {
      assert IsGroup(items, i - 1, if !items[i].Observation? then i + 1
                                   else if items[i - 1].Observation? then i - 1 else i, i + 1);
    }
  }

  /**
   Compaction is refused exactly when every index between the first item and the last
   `keep` is inside of a group; otherwise it cuts at the largest one that is not, one
   summary with the number of items it stands for replaces them, and the rest is
   untouched.
   */
  lemma CompactionIsBest(items: seq<HistoryItem>, summary: string, keep: nat)
    requires Trim(summary) != "" && |items| > 1
    ensures var base := |items| - Min(Max(keep, 1), |items| - 1);
            var after := Compacted(items, summary, keep);
            if forall i :: 0 < i <= base ==> Inside(items, i) then after == items
            else exists k :: 0 < k <= base && !Inside(items, k)
                             && (forall i :: k < i <= base ==> Inside(items, i))
                             && after == [ContextSummary(summary, k)] + items[k..]
  {
    hide Inside;
    var base := |items| - Min(Max(keep, 1), |items| - 1);
    forall i | 0 < i <= base ensures !LegalCut(items, i) <==> Inside(items, i) {
      RefusedIffInside(items, i);
    }
    var k := CutBelow(items, base);
    if k > 0 {
      assert !Inside(items, k);
    }
  }

  /** The history never grows by compaction, and it keeps at least its last item. */
  lemma CompactionShrinks(items: seq<HistoryItem>, summary: string, keep: nat)
    ensures |Compacted(items, summary, keep)| <= |items|
    ensures items != [] ==>
              var after := Compacted(items, summary, keep);
              after != [] && after[|after| - 1] == items[|items| - 1]
  {
  }

  /** Calls followed by their observations are wholly summarised or wholly kept. */
  lemma NoCallParted(items: seq<HistoryItem>, a: nat, b: nat, c: nat, keep: nat)
    requires a < b < c <= |items|
    requires forall i :: a <= i < b ==> items[i].ToolCall?
    requires forall i :: b <= i < c ==> items[i].Observation?
    ensures var split := SplitIndex(items, keep);
            split.Some? ==> split.value <= a || c <= split.value
    ensures var split := SplitIndex(items, keep);
            split.Some? && a > 0 && items[a - 1].AssistantWithReasoning? ==> split.value != a
  {
  }

  // ----- recording -----

  function RecordAll(items: seq<HistoryItem>, more: seq<HistoryItem>, max: nat): seq<HistoryItem> {
    if more == [] then items
    else Recorded(RecordAll(items, more[..|more| - 1], max), more[|more| - 1], max)
  }

  /** Over any run of records a history is the most recent part of all that was recorded. */
  lemma {:induction false} RecordKeepsRecent(more: seq<HistoryItem>, max: nat)
    requires max >= 1
    ensures RecordAll([], more, max) == Last(more, max)
  {
    if more != [] {
      var front, x := more[..|more| - 1], more[|more| - 1];
      RecordKeepsRecent(front, max);
      assert more == front + [x];
      LastOfLast(front, x, max);
    }
  }

  lemma LastOfLast<T>(front: seq<T>, x: T, max: nat)
    requires max >= 1
    ensures Last(Last(front, max) + [x], max) == Last(front + [x], max)
  {
    if |front| > max {
      var k := |front| - max;
      assert (front[k..] + [x])[1..] == front[k + 1..] + [x];
      assert (front + [x])[k + 1..] == front[k + 1..] + [x];
    }
  }

  /** Recording into a full history cuts between the two oldest items, whatever they are. */
  lemma EvictionIsLegalIff(items: seq<HistoryItem>, item: HistoryItem, max: nat)
    requires 1 <= max && |items| <= max
    ensures var all := items + [item];
            var cut := |all| - |Recorded(items, item, max)|;
            LegalCut(all, cut) <==> |items| < max || !Inside(all, 1)
  {
    if items != [] {
      RefusedIffInside(items + [item], 1);
    }
  }

  /** So a recorded item can leave an observation without its call. */
  lemma EvictionCanPartACall(id: string)
    ensures Recorded([ToolCall(id), Observation(id)], Assistant("done"), 2) ==
            [Observation(id), Assistant("done")]
    ensures !LegalCut([ToolCall(id), Observation(id)] + [Assistant("done")], 1)
  {
    var all := [ToolCall(id), Observation(id)] + [Assistant("done")];
    assert all[1..] == [Observation(id), Assistant("done")];
  }

  predicate OfTools(item: HistoryItem) {
    item.ToolCall? || item.Observation?
  }

  /** The observation at i answers the call at j: calls, then observations, and nothing else between them. */
  ghost predicate AnswersAt(items: seq<HistoryItem>, j: int, i: int) {
    && 0 <= j < i < |items| && items[i].Observation? && items[j] == ToolCall(items[i].callId)
    && forall l :: j <= l < i ==> OfTools(items[l]) && Bound(items[l], items[l + 1])
  }

  ghost predicate IsAnswered(items: seq<HistoryItem>, j: int) {
    exists i :: AnswersAt(items, j, i)
  }

  ghost predicate IsAnswer(items: seq<HistoryItem>, i: int) {
    exists j :: AnswersAt(items, j, i)
  }

  /** Calls and their observations so far: each observation answers, no call comes twice, calls may still wait. */
  ghost predicate Groups(items: seq<HistoryItem>) {
    (forall i :: 0 <= i < |items| && items[i].Observation? ==> IsAnswer(items, i)) && CallsDiffer(items)
  }

  /** Groups in which no call waits any more. */
  ghost predicate WholeGroups(items: seq<HistoryItem>) {
    Groups(items) && forall j :: 0 <= j < |items| && items[j].ToolCall? ==> IsAnswered(items, j)
  }

  ghost predicate CallsDiffer(items: seq<HistoryItem>) {
    forall j, l :: 0 <= j < l < |items| && items[j].ToolCall? ==> items[j] != items[l]
  }

  /** The observation at i stands without its call. */
  ghost predicate OrphanAt(items: seq<HistoryItem>, i: int) {
    0 <= i < |items| && items[i].Observation? && forall j :: 0 <= j < i ==> items[j] != ToolCall(items[i].callId)
  }

  ghost predicate HasOrphan(items: seq<HistoryItem>) {
    exists i :: OrphanAt(items, i)
  }

  /** A call before the cut is answered behind it. */
  ghost predicate PartsAnswer(items: seq<HistoryItem>, cut: int) {
    exists j, i :: j < cut <= i && AnswersAt(items, j, i)
  }

  /** The cut is inside of a group, behind one of its calls or observations. */
  ghost predicate InsideGroup(items: seq<HistoryItem>, cut: nat)
    requires 0 < cut < |items|
  {
    OfTools(items[cut - 1]) && Inside(items, cut)
  }

  lemma NoOrphanInGroups(items: seq<HistoryItem>)
    requires Groups(items)
    ensures !HasOrphan(items)
  {
    forall i ensures !OrphanAt(items, i) {
      if 0 <= i < |items| && items[i].Observation? {
        assert IsAnswer(items, i);
      }
    }
  }

  lemma OrphanIsCutOff(items: seq<HistoryItem>, cut: nat, i: int)
    requires Groups(items) && 0 < cut < |items| && OrphanAt(items[cut..], i)
    ensures PartsAnswer(items, cut)
  {
    var at := cut + i;
    forall j | cut <= j < at ensures items[j] != ToolCall(items[at].callId) {
      assert items[cut..][j - cut] == items[j];
    }
    assert IsAnswer(items, at);
    var j :| AnswersAt(items, j, at);
    assert j < cut;
  }

  /** The answer to a call that is cut off is an orphan. */
  lemma AnswerIsOrphan(items: seq<HistoryItem>, cut: nat, j: int, at: int)
    requires CallsDiffer(items) && j < cut <= at && AnswersAt(items, j, at)
    ensures OrphanAt(items[cut..], at - cut)
  {
    var kept, i := items[cut..], at - cut;
    forall l | 0 <= l < i ensures kept[l] != ToolCall(kept[i].callId) {
      assert kept[l] == items[cut + l] && kept[i] == items[at];
    }
  }

  /** In whole groups a cut inside a group parts a call from its answer, and no other cut does. */
  lemma GroupCutParts(items: seq<HistoryItem>, cut: nat)
    requires WholeGroups(items) && 0 < cut < |items|
    ensures PartsAnswer(items, cut) <==> InsideGroup(items, cut)
  {
    hide IsAnswer, Inside;
    RefusedIffInside(items, cut);
    if InsideGroup(items, cut) {
      if items[cut].Observation? {
        ObservationIsParted(items, cut);
      } else {
        assert IsAnswered(items, cut - 1);
        var at :| AnswersAt(items, cut - 1, at);
      }
    }
  }

  lemma ObservationIsParted(items: seq<HistoryItem>, cut: nat)
    requires Groups(items) && 0 < cut < |items| && items[cut].Observation?
    ensures PartsAnswer(items, cut)
  {
    assert IsAnswer(items, cut);
    var j :| AnswersAt(items, j, cut);
  }

  /**
   Over any run of records of call groups, with calls that still wait or without, a
   history keeps an observation without its call exactly when its overflow parts a call
   from its answer. Once no call waits any more that is exactly when it overflowed
   inside a group: the last item it dropped is a call or an observation bound to the
   oldest one it kept.
   */
  lemma OrphanIffGroupCut(more: seq<HistoryItem>, max: nat)
    requires max >= 1 && Groups(more)
    ensures var cut := |more| - max;
            HasOrphan(RecordAll([], more, max)) <==> cut > 0 && PartsAnswer(more, cut)
    ensures var cut := |more| - max;
            WholeGroups(more) ==> (HasOrphan(RecordAll([], more, max)) <==> cut > 0 && InsideGroup(more, cut))
  {
    hide Groups, OrphanAt, RecordAll, AnswersAt;
    RecordKeepsRecent(more, max);
    var kept := RecordAll([], more, max);
    if |more| <= max {
      NoOrphanInGroups(more);
    } else {
      var cut := |more| - max;
      if HasOrphan(kept) {
        var i :| OrphanAt(kept, i);
        OrphanIsCutOff(more, cut, i);
      }
      if PartsAnswer(more, cut) {
        var j, i :| j < cut <= i && AnswersAt(more, j, i);
        assert CallsDiffer(more) by { GroupsDiffer(more); }
        AnswerIsOrphan(more, cut, j, i);
      }
      if WholeGroups(more) {
        GroupCutParts(more, cut);
      }
    }
  }

  lemma GroupsDiffer(items: seq<HistoryItem>)
    requires Groups(items)
    ensures CallsDiffer(items)
  {
  }

  // ----- declarations over runs -----

  lemma {:induction false} DeclarationsConcat(a: seq<HistoryItem>, b: seq<HistoryItem>)
    ensures Declarations(a + b) == Declarations(a) + Declarations(b)
    decreases |b|
  {
    if b == [] {
      assert a + b == a;
    } else {
      DeclarationsConcat(a, b[..|b| - 1]);
      assert (a + b)[..|a + b| - 1] == a + b[..|b| - 1];
    }
  }

  lemma {:induction false} LastDeclaredIsLast(items: seq<HistoryItem>)
    ensures var d := Declarations(items);
            LastDeclared(items) == if d == [] then [] else d[|d| - 1]
  {
    if items != [] {
      LastDeclaredIsLast(items[..|items| - 1]);
    }
  }

  lemma SuffixDiffers(items: seq<HistoryItem>, k: nat)
    requires k <= |items| && DeclarationsDiffer(items)
    ensures DeclarationsDiffer(items[k..])
  {
    assert items == items[..k] + items[k..];
    DeclarationsConcat(items[..k], items[k..]);
    var all, head, d := Declarations(items), Declarations(items[..k]), Declarations(items[k..]);
    forall i | 0 < i < |d| ensures d[i - 1] != d[i] {
      assert all[|head| + i - 1] == d[i - 1] && all[|head| + i] == d[i];
    }
  }

  datatype Step = RecordStep(item: HistoryItem) | DeclareStep(names: seq<string>)
                | CompactStep(summary: string, keep: nat)

  function Take(items: seq<HistoryItem>, step: Step, max: nat): seq<HistoryItem> {
    match step
    case RecordStep(item) => Recorded(items, item, max)
    case DeclareStep(names) => Declared(items, names, max)
    case CompactStep(summary, keep) => Compacted(items, summary, keep)
  }

  function Run(steps: seq<Step>, max: nat): seq<HistoryItem> {
    if steps == [] then [] else Take(Run(steps[..|steps| - 1], max), steps[|steps| - 1], max)
  }

  lemma RecordedDiffers(items: seq<HistoryItem>, item: HistoryItem, max: nat)
    requires DeclarationsDiffer(items)
    requires item.ToolsDeclared? ==> Declarations(items) == [] || LastDeclared(items) != item.names
    ensures DeclarationsDiffer(Recorded(items, item, max))
  {
    LastDeclaredIsLast(items);
    DeclarationsConcat(items, [item]);
    assert [item][..0] == [];
    assert Declarations([item]) == if item.ToolsDeclared? then [item.names] else [];
    if |items + [item]| > max {
      SuffixDiffers(items + [item], |items + [item]| - max);
    }
  }

  /** In every run the history stays within its bound and never repeats a declaration in a row. */
  lemma {:induction false} RunStaysBoundedAndDistinct(steps: seq<Step>, max: nat)
    requires max >= 1
    requires forall i :: 0 <= i < |steps| && steps[i].RecordStep? ==> !steps[i].item.ToolsDeclared?
    ensures |Run(steps, max)| <= max
    ensures DeclarationsDiffer(Run(steps, max))
  {
    if steps != [] {
      var front, step := steps[..|steps| - 1], steps[|steps| - 1];
      RunStaysBoundedAndDistinct(front, max);
      var items := Run(front, max);
      match step {
        case RecordStep(item) => RecordedDiffers(items, item, max);
        case DeclareStep(names) =>
          if LastDeclared(items) != names {
            RecordedDiffers(items, ToolsDeclared(names), max);
          }
        case CompactStep(summary, keep) =>
          CompactionShrinks(items, summary, keep);
          var split := SplitIndex(items, keep);
          if Trim(summary) != "" && split.Some? {
            SuffixDiffers(items, split.value);
            var head := ContextSummary(summary, split.value);
            DeclarationsConcat([head], items[split.value..]);
            assert [head][..0] == [] && Declarations([head]) == [];
          }
      }
    }
  }

  /** A declaration goes behind what was there, and nothing changes when it repeats the latest one. */
  lemma DeclarationJoins(items: seq<HistoryItem>, names: seq<string>, max: nat)
    requires 1 <= max && |items| <= max
    ensures var d, after := Declarations(items), Declared(items, names, max);
            if names == (if d == [] then [] else d[|d| - 1]) then after == items
            else after == items[if |items| < max then 0 else 1..] + [ToolsDeclared(names)]
  {
    LastDeclaredIsLast(items);
  }

  /** After a declaration the latest one on record is the declared one. */
  lemma DeclaredIsLatest(items: seq<HistoryItem>, names: seq<string>, max: nat)
    requires max >= 1
    ensures LastDeclared(Declared(items, names, max)) == names
  {
    if LastDeclared(items) != names {
      var after := Recorded(items, ToolsDeclared(names), max);
      assert after[|after| - 1] == ToolsDeclared(names);
    }
  }
}
