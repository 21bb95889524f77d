/**
 The cards of one call, request or subagent through everything else that happens to a
 transcript: other operations leave them as they are, up to the field limits, and the
 budget takes some of them away.
 */
module TranscriptRows {
  import opened Basics
  import opened BoundedText
  import opened FencedBlocks
  import opened TranscriptState
  import opened TranscriptInvariant
  import opened TranscriptBudget
  import opened TranscriptStuck

  datatype Row = Row(id: nat, card: Card)

  predicate IsCard(m: Message, key: CardKey) {
    m.variant.CardOf? && KeyOf(m.variant.card) == key
  }

  /** A card as it shows within the field limits. */
  function Shown(card: Card, cfg: Config): Card {
    BoundCard(card, CardLimit(cfg))
  }

  /** The cards of a key with the ids of their messages, in order. */
  function Rows(ms: seq<Message>, key: CardKey, cfg: Config): seq<Row> {
    if ms == [] then []
    else if IsCard(ms[0], key) then [Row(ms[0].id, Shown(ms[0].variant.card, cfg))] + Rows(ms[1..], key, cfg)
    else Rows(ms[1..], key, cfg)
  }

  function RowsOf(s: State, key: CardKey, cfg: Config): seq<Row> {
    Rows(s.messages, key, cfg)
  }

  function Except(rows: seq<Row>, gone: set<nat>): seq<Row> {
    if rows == [] then []
    else if rows[0].id in gone then Except(rows[1..], gone)
    else [rows[0]] + Except(rows[1..], gone)
  }

  // ----- lists -----

  lemma {:induction false} RowsConcat(a: seq<Message>, b: seq<Message>, key: CardKey, cfg: Config)
    ensures Rows(a + b, key, cfg) == Rows(a, key, cfg) + Rows(b, key, cfg)
  {
    hide IsCard, Shown;
    if a == [] {
      assert a + b == b;
    } else {
      RowsConcat(a[1..], b, key, cfg);
      PrefixSlices(a, b, 1);
    }
  }

  lemma {:induction false} NoRows(ms: seq<Message>, key: CardKey, cfg: Config)
    requires forall i :: 0 <= i < |ms| ==> !IsCard(ms[i], key)
    ensures Rows(ms, key, cfg) == []
  {
    hide IsCard, Shown;
    if ms != [] {
      NoRows(ms[1..], key, cfg);
    }
  }

  /** Message i between those before and behind it. */
  lemma RowsAround(ms: seq<Message>, i: nat, m: Message, key: CardKey, cfg: Config)
    requires i < |ms|
    ensures Rows(ms[i := m], key, cfg) ==
            Rows(ms[..i], key, cfg) + (Rows([m], key, cfg) + Rows(ms[i + 1..], key, cfg))
  {
    hide Rows;
    assert ms[i := m] == ms[..i] + ([m] + ms[i + 1..]);
    RowsConcat(ms[..i], [m] + ms[i + 1..], key, cfg);
    RowsConcat([m], ms[i + 1..], key, cfg);
  }

  lemma UpdateRows(ms: seq<Message>, i: nat, m: Message, key: CardKey, cfg: Config)
    requires i < |ms| && !IsCard(ms[i], key) && !IsCard(m, key)
    ensures Rows(ms[i := m], key, cfg) == Rows(ms, key, cfg)
  {
    hide IsCard, Shown;
    assert ms == ms[i := ms[i]];
    RowsAround(ms, i, m, key, cfg);
    RowsAround(ms, i, ms[i], key, cfg);
  }

  /** Messages that are no such cards come instead of one that is none. */
  lemma SpliceRows(ms: seq<Message>, i: nat, more: seq<Message>, key: CardKey, cfg: Config)
    requires i < |ms| && !IsCard(ms[i], key)
    requires forall k :: 0 <= k < |more| ==> !IsCard(more[k], key)
    ensures Rows(Splice(ms, i, more), key, cfg) == Rows(ms, key, cfg)
  {
    hide IsCard, Shown;
    assert ms == ms[i := ms[i]];
    RowsAround(ms, i, ms[i], key, cfg);
    NoRows(more, key, cfg);
    RowsConcat(ms[..i] + more, ms[i + 1..], key, cfg);
    RowsConcat(ms[..i], more, key, cfg);
  }

  lemma CutRows(ms: seq<Message>, i: nat, key: CardKey, cfg: Config)
    requires i < |ms| && !IsCard(ms[i], key)
    ensures Rows(ms[..i] + ms[i + 1..], key, cfg) == Rows(ms, key, cfg)
  {
    hide IsCard, Rows;
    SpliceRows(ms, i, [], key, cfg);
    assert ms[..i] + [] + ms[i + 1..] == ms[..i] + ms[i + 1..];
  }

  lemma AppendRows(ms: seq<Message>, more: seq<Message>, key: CardKey, cfg: Config)
    requires forall k :: 0 <= k < |more| ==> !IsCard(more[k], key)
    ensures Rows(ms + more, key, cfg) == Rows(ms, key, cfg)
  {
    hide IsCard, Shown;
    NoRows(more, key, cfg);
    RowsConcat(ms, more, key, cfg);
  }

  lemma {:induction false} ExceptConcat(a: seq<Row>, b: seq<Row>, gone: set<nat>)
    ensures Except(a + b, gone) == Except(a, gone) + Except(b, gone)
  {
    if a == [] {
      assert a + b == b;
    } else {
      ExceptConcat(a[1..], b, gone);
      PrefixSlices(a, b, 1);
    }
  }

  lemma {:induction false} ExceptTwice(rows: seq<Row>, gone: set<nat>, more: set<nat>)
    ensures Except(Except(rows, gone), more) == Except(rows, gone + more)
  {
    if rows != [] {
      ExceptTwice(rows[1..], gone, more);
    }
  }

  lemma {:induction false} ExceptNone(rows: seq<Row>)
    ensures Except(rows, {}) == rows
  {
    if rows != [] {
      ExceptNone(rows[1..]);
    }
  }

  // ----- lookups -----

  lemma {:induction false} FirstRow(ms: seq<Message>, key: CardKey, cfg: Config)
    ensures var i, rows := FindFirstCard(ms, key), Rows(ms, key, cfg);
            && (i.Some? <==> rows != [])
            && (i.Some? ==> rows[0] == Row(ms[i.value].id, Shown(ms[i.value].variant.card, cfg)))
  {
    hide Shown;
    if ms != [] {
      FirstRow(ms[1..], key, cfg);
    }
  }

  lemma {:induction false} LastRow(ms: seq<Message>, key: CardKey, cfg: Config)
    ensures var i, rows := FindCard(ms, key), Rows(ms, key, cfg);
            && (i.Some? <==> rows != [])
            && (i.Some? ==> rows[|rows| - 1] == Row(ms[i.value].id, Shown(ms[i.value].variant.card, cfg)))
  {
    hide Shown, Rows;
    if ms == [] {
      EmptyRows(key, cfg);
    } else {
      var front, m := ms[..|ms| - 1], ms[|ms| - 1];
      LastRow(front, key, cfg);
      assert ms == front + [m];
      RowsConcat(front, [m], key, cfg);
      RowsOfOne(m, key, cfg);
    }
  }

  lemma RowsOfOne(m: Message, key: CardKey, cfg: Config)
    ensures Rows([m], key, cfg) == if IsCard(m, key) then [Row(m.id, Shown(m.variant.card, cfg))] else []
  {
    assert [m][1..] == [];
  }

  lemma EmptyRows(key: CardKey, cfg: Config)
    ensures Rows([], key, cfg) == []
  {
  }

  // ----- the budget -----

  lemma ShownAgain(m: Message, key: CardKey, cfg: Config)
    ensures var t := TruncateFields(m, cfg.maxFieldBytes);
            && t.id == m.id && (IsCard(t, key) <==> IsCard(m, key))
            && (IsCard(m, key) ==> Shown(t.variant.card, cfg) == Shown(m.variant.card, cfg))
  {
    hide TruncateToRecent, BoundCard;
    if m.variant.CardOf? {
      CardAgain(m.variant.card, CardLimit(cfg));
      KeyStays(m.variant.card, CardLimit(cfg));
    }
  }

  lemma KeyStays(card: Card, max: nat)
    ensures KeyOf(BoundCard(card, max)) == KeyOf(card) && DecisionOf(BoundCard(card, max)) == DecisionOf(card)
  {
    hide TruncateToRecent, BoundItems, BoundOptions, BoundFiles, BoundSteps;
  }

  lemma {:induction false} TruncatedRows(ms: seq<Message>, key: CardKey, cfg: Config)
    ensures Rows(TruncateAll(ms, cfg.maxFieldBytes), key, cfg) == Rows(ms, key, cfg)
  {
    hide TruncateFields, IsCard, Shown;
    if ms != [] {
      var after := TruncateAll(ms, cfg.maxFieldBytes);
      assert after[1..] == TruncateAll(ms[1..], cfg.maxFieldBytes);
      ShownAgain(ms[0], key, cfg);
      TruncatedRows(ms[1..], key, cfg);
    }
  }

  lemma {:induction false} SurvivingRows(ms: seq<Message>, gone: set<nat>, key: CardKey, cfg: Config)
    ensures Rows(Survivors(ms, gone), key, cfg) == Except(Rows(ms, key, cfg), gone)
  {
    hide IsCard, Shown;
    if ms != [] {
      SurvivingRows(ms[1..], gone, key, cfg);
    }
  }

  /** A budget check takes away the cards of those who have to go, and no others. */
  lemma CheckedRows(s: State, key: CardKey, cfg: Config)
    requires Inv(s)
    ensures RowsOf(EnforceBudget(s, cfg), key, cfg) == Except(RowsOf(s, key, cfg), Leaving(s, cfg))
    ensures EnforceBudget(s, cfg).nextId == s.nextId
  {
    hide Rows, Inv, Leaving, Survivors, Evict;
    CheckIsForeseen(s, cfg);
    SurvivingRows(Bounded(s, cfg).messages, Leaving(s, cfg), key, cfg);
    TruncatedRows(s.messages, key, cfg);
    EvictNext(s.(messages := TruncateAll(s.messages, cfg.maxFieldBytes)), cfg);
  }

  // ----- operations that concern other messages -----

  /** The cards of the key are the same, and ids only grow. */
  ghost predicate Frames(s: State, t: State, key: CardKey, cfg: Config) {
    t.nextId >= s.nextId && RowsOf(t, key, cfg) == RowsOf(s, key, cfg)
  }

  /** Some cards of the key may be gone, the others are the same. */
  ghost predicate Thins(s: State, t: State, key: CardKey, cfg: Config) {
    t.nextId >= s.nextId && exists gone: set<nat> :: RowsOf(t, key, cfg) == Except(RowsOf(s, key, cfg), gone)
  }

  lemma FramesThin(s: State, t: State, key: CardKey, cfg: Config)
    requires Frames(s, t, key, cfg)
    ensures Thins(s, t, key, cfg)
  {
    hide RowsOf;
    ExceptNone(RowsOf(s, key, cfg));
  }

  lemma ThinsThin(s: State, t: State, u: State, key: CardKey, cfg: Config)
    requires Thins(s, t, key, cfg) && Thins(t, u, key, cfg)
    ensures Thins(s, u, key, cfg)
  {
    hide RowsOf;
    var gone: set<nat> :| RowsOf(t, key, cfg) == Except(RowsOf(s, key, cfg), gone);
    var more: set<nat> :| RowsOf(u, key, cfg) == Except(RowsOf(t, key, cfg), more);
    ExceptTwice(RowsOf(s, key, cfg), gone, more);
  }

  lemma CheckThins(s: State, t: State, key: CardKey, cfg: Config)
    requires Thins(s, t, key, cfg) && Inv(t)
    ensures Thins(s, EnforceBudget(t, cfg), key, cfg)
  {
    hide RowsOf, EnforceBudget, Inv, Thins;
    CheckedRows(t, key, cfg);
    assert Thins(t, EnforceBudget(t, cfg), key, cfg) by { LeavingThins(t, EnforceBudget(t, cfg), key, cfg); }
    ThinsThin(s, t, EnforceBudget(t, cfg), key, cfg);
  }

  lemma LeavingThins(s: State, t: State, key: CardKey, cfg: Config)
    requires t.nextId == s.nextId && RowsOf(t, key, cfg) == Except(RowsOf(s, key, cfg), Leaving(s, cfg))
    ensures Thins(s, t, key, cfg)
  {
  }

  /** No card that is looked up by a key. */
  lemma Keyless(m: Message, key: CardKey)
    requires KindOf(m) != Plain && (KindOf(m) == PlanRow ==> key != PlanKey)
    ensures !IsCard(m, key)
  {
  }

  lemma FramesUpdate(s: State, i: nat, m: Message, t: State, key: CardKey, cfg: Config)
    requires i < |s.messages| && !IsCard(s.messages[i], key) && !IsCard(m, key)
    requires t.messages == s.messages[i := m] && t.nextId == s.nextId
    ensures Frames(s, t, key, cfg)
  {
    hide IsCard;
    UpdateRows(s.messages, i, m, key, cfg);
  }

  lemma FramesPush(s: State, m: Message, key: CardKey, cfg: Config)
    requires !IsCard(m, key)
    ensures Frames(s, Push(s, m), key, cfg)
  {
    hide Rows;
    AppendRows(s.messages, Stamp([m], s.currentTurn, s.nextId), key, cfg);
  }

  lemma FramesStamped(s: State, more: seq<Message>, turn: Option<string>, t: State, key: CardKey, cfg: Config)
    requires forall k :: 0 <= k < |more| ==> !IsCard(more[k], key)
    requires t.messages == s.messages + Stamp(more, turn, s.nextId) && t.nextId == s.nextId + |more|
    ensures Frames(s, t, key, cfg)
  {
    hide Rows;
    AppendRows(s.messages, Stamp(more, turn, s.nextId), key, cfg);
  }

  lemma FramesWithout(s: State, id: nat, t: State, key: CardKey, cfg: Config)
    requires Inv(s) && HasTag(s.messages, id, LiveStatus) && key != NoKey
    requires t.messages == WithoutId(s.messages, id) && t.nextId == s.nextId
    ensures Frames(s, t, key, cfg)
  {
    hide Rows, WithoutId, IsCard, Position;
    WithoutIdCuts(s.messages, id);
    var i := Position(s.messages, id);
    if i.Some? {
      OneTag(s.messages, i.value, LiveStatus);
      Keyless(s.messages[i.value], key);
      CutRows(s.messages, i.value, key, cfg);
    }
  }

  lemma FramesFinish(s: State, key: CardKey, cfg: Config)
    requires Inv(s) && key != NoKey
    ensures Inv(FinishStatus(s)) && Frames(s, FinishStatus(s), key, cfg)
  {
    hide RowsOf, WithoutId, HasTag;
    FinishStatusKeeps(s);
    if s.activeStatusId.Some? {
      FramesWithout(s, s.activeStatusId.value, FinishStatus(s), key, cfg);
    }
  }

  /** The messages a text becomes are texts and charts. */
  lemma FinishedAreKeyless(text: string, reasoning: Option<string>, key: CardKey, cfg: Config)
    requires key != NoKey
    ensures var ms := Finished(text, reasoning, cfg); forall k :: 0 <= k < |ms| ==> !IsCard(ms[k], key)
  {
    hide Pieces;
  }

  lemma FramesReplaceBy(s: State, i: nat, more: seq<Message>, key: CardKey, cfg: Config)
    requires i < |s.messages| && !IsCard(s.messages[i], key)
    requires forall k :: 0 <= k < |more| ==> !IsCard(more[k], key)
    ensures Frames(s, ReplaceBy(s, i, more), key, cfg)
  {
    hide Rows, Splice;
    SpliceRows(s.messages, i, Stamp(more, s.currentTurn, s.nextId), key, cfg);
  }

  lemma FramesClose(s: State, key: CardKey, cfg: Config)
    requires Inv(s) && key != NoKey
    ensures Frames(s, CloseSegment(s, cfg), key, cfg)
  {
    hide RowsOf, Finished, Inv, ReplaceBy, IsCard;
    StreamingAt(s);
    var i := PositionOf(s.messages, s.streamingId);
    if i.Some? {
      var m := s.messages[i.value];
      Keyless(m, key);
      FinishedAreKeyless(m.content, Some(m.reasoning), key, cfg);
      var s1 := s.(streamingId := None);
      SameRowsAre(s, s1, key, cfg);
      FramesReplaceBy(s1, i.value, Finished(m.content, Some(m.reasoning), cfg), key, cfg);
    } else {
      SameRowsAre(s, s.(streamingId := None), key, cfg);
    }
  }

  lemma SameRowsAre(s: State, t: State, key: CardKey, cfg: Config)
    requires t.messages == s.messages && t.nextId == s.nextId
    ensures Frames(s, t, key, cfg)
  {
  }

  lemma FramesSettled(s: State, key: CardKey, cfg: Config)
    requires Inv(s) && key != NoKey
    ensures var t := CloseSegment(FinishStatus(s), cfg); Inv(t) && Frames(s, t, key, cfg)
  {
    hide RowsOf, Inv, FinishStatus, CloseSegment;
    FramesFinish(s, key, cfg);
    FramesClose(FinishStatus(s), key, cfg);
    SettledKeeps(s, cfg);
  }

  lemma FramesPut(s: State, m: Message, key: CardKey, cfg: Config)
    requires Inv(s) && key != NoKey && !m.variant.CardOf?
    ensures Frames(s, PutOrOpen(s, PositionOf(s.messages, s.streamingId), m), key, cfg)
  {
    hide RowsOf;
    StreamingAt(s);
    var i := PositionOf(s.messages, s.streamingId);
    if i.Some? {
      Keyless(s.messages[i.value], key);
      FramesUpdate(s, i.value, m, PutOrOpen(s, i, m), key, cfg);
    } else {
      FramesPush(s, m, key, cfg);
      SameRowsAre(Push(s, m), PutOrOpen(s, i, m), key, cfg);
    }
  }

  lemma SegmentIsText(s: State)
    requires Inv(s)
    ensures var i := PositionOf(s.messages, s.streamingId); i.Some? ==> !s.messages[i.value].variant.CardOf?
  {
    StreamingAt(s);
  }

  lemma FramesText(s: State, delta: string, key: CardKey, cfg: Config)
    requires Inv(s) && key != NoKey
    ensures Frames(s, AppendDelta(s, delta, cfg), key, cfg)
  {
    hide RowsOf, Inv, FinishStatus, AppendBounded, PutOrOpen;
    FramesFinish(s, key, cfg);
    var s1 := FinishStatus(s);
    SegmentIsText(s1);
    FramesPut(s1, WithText(s1.messages, PositionOf(s1.messages, s1.streamingId), delta, cfg), key, cfg);
  }

  lemma FramesThought(s: State, delta: string, key: CardKey, cfg: Config)
    requires Inv(s) && key != NoKey
    ensures Frames(s, AppendReasoning(s, delta, cfg), key, cfg)
  {
    hide RowsOf, Inv, FinishStatus, AppendBounded, SegmentHasText, PutOrOpen;
    FramesFinish(s, key, cfg);
    var s0 := FinishStatus(s);
    UnstreamedKeeps(s0);
    SameRowsAre(s0, s0.(streamingId := None), key, cfg);
    var s1 := if SegmentHasText(s0) then s0.(streamingId := None) else s0;
    SegmentIsText(s1);
    FramesPut(s1, WithReasoning(s1.messages, PositionOf(s1.messages, s1.streamingId), delta, cfg), key, cfg);
  }

  lemma FramesFinal(s: State, text: string, reasoning: Option<string>, key: CardKey, cfg: Config)
    requires Inv(s) && key != NoKey
    ensures Frames(s, FinalizeAssistant(s, text, reasoning, cfg), key, cfg)
  {
    hide RowsOf, Inv, FinishStatus, Finished, ReplaceBy, IsCard;
    FramesFinish(s, key, cfg);
    var s1 := FinishStatus(s);
    var s2 := s1.(streamingId := None);
    SameRowsAre(s1, s2, key, cfg);
    StreamingAt(s1);
    var i := PositionOf(s1.messages, s1.streamingId);
    if i.Some? {
      var kept := if reasoning.Some? then reasoning.value else s1.messages[i.value].reasoning;
      Keyless(s1.messages[i.value], key);
      FinishedAreKeyless(text, Some(kept), key, cfg);
      FramesReplaceBy(s2, i.value, Finished(text, Some(kept), cfg), key, cfg);
    } else {
      FinishedAreKeyless(text, reasoning, key, cfg);
      FramesStamped(s2, Finished(text, reasoning, cfg), s2.currentTurn, FinalizeAssistant(s, text, reasoning, cfg),
                    key, cfg);
    }
  }

  lemma FramesStatus(s: State, title: string, isDone: bool, key: CardKey, cfg: Config)
    requires Inv(s) && key != NoKey
    ensures Frames(s, UpsertStatus(s, title, isDone), key, cfg)
  {
    hide RowsOf, HasTag;
    var i := PositionOf(s.messages, s.activeStatusId);
    if i.Some? {
      OneTag(s.messages, i.value, LiveStatus);
      Keyless(s.messages[i.value], key);
      var m := s.messages[i.value].(variant := Status(title, isDone), isStreaming := !isDone);
      FramesUpdate(s, i.value, m, UpsertStatus(s, title, isDone), key, cfg);
    } else {
      FramesPush(s, StatusMessage(title, isDone), key, cfg);
      SameRowsAre(Push(s, StatusMessage(title, isDone)), UpsertStatus(s, title, isDone), key, cfg);
    }
  }

  lemma FramesPlan(s: State, plan: PlanData, key: CardKey, cfg: Config)
    requires Inv(s) && key != PlanKey
    ensures Frames(s, UpsertPlan(s, plan), key, cfg)
  {
    hide RowsOf, HasTag;
    var s1 := s.(latestPlan := Some(plan));
    SameRowsAre(s, s1, key, cfg);
    var i := PositionOf(s1.messages, s1.planMessageId);
    if i.Some? {
      OneTag(s1.messages, i.value, KindOf(s1.messages[i.value]));
      Keyless(s1.messages[i.value], key);
      var m := s1.messages[i.value].(variant := CardOf(PlanCard(plan)));
      FramesUpdate(s1, i.value, m, UpsertPlan(s, plan), key, cfg);
    } else {
      FramesPush(s1, CardMessage(PlanCard(plan)), key, cfg);
      SameRowsAre(Push(s1, CardMessage(PlanCard(plan))), UpsertPlan(s, plan), key, cfg);
    }
  }

  lemma FramesCard(s: State, other: CardKey, card: Card, key: CardKey, cfg: Config)
    requires KeyOf(card) == other && other != key
    ensures Frames(s, ReplaceCard(s, other, card), key, cfg)
  {
    hide RowsOf, FindCard;
    var i := FindCard(s.messages, other);
    if i.Some? {
      FramesUpdate(s, i.value, s.messages[i.value].(variant := CardOf(card)), ReplaceCard(s, other, card), key, cfg);
    } else {
      SameRowsAre(s, s, key, cfg);
    }
  }

  lemma FramesFirstCard(s: State, other: CardKey, card: Card, key: CardKey, cfg: Config)
    requires KeyOf(card) == other && other != key
    ensures Frames(s, ReplaceFirstCard(s, other, card), key, cfg)
  {
    hide RowsOf, FindFirstCard;
    var i := FindFirstCard(s.messages, other);
    if i.Some? {
      FramesUpdate(s, i.value, s.messages[i.value].(variant := CardOf(card)), ReplaceFirstCard(s, other, card),
                   key, cfg);
    } else {
      SameRowsAre(s, s, key, cfg);
    }
  }

  // ----- events and actions that concern other cards -----

  /** The event may add, change or look for a card of the key. */
  predicate Touches(e: Event, key: CardKey) {
    match e
    case ToolCallStarted(_, callId, _, _, _) => key == ToolKey(callId)
    case ObservationAdded(_, obs) => key == ToolKey(obs.callId)
    case ToolCallFinished(_, callId, _) => key == ToolKey(callId)
    case NeedUserInput(_, _, callId, _, _, _) => key == ConfirmKey(if callId.Some? then callId.value else "")
    case ToolApprovalResolved(_, callId, _) => key == ConfirmKey(callId)
    case SubAgentStarted(_, id, _, _) => key == SubAgentKey(id)
    case SubAgentUpdated(_, id, _) => key == SubAgentKey(id)
    case SubAgentFinished(_, id, _, _) => key == SubAgentKey(id)
    case PlanUpdated(_, _) => key == PlanKey
    case _ => false
  }

  predicate Concerns(a: Action, key: CardKey) {
    match a
    case ApplyEvent(e) => Touches(e, key)
    case ApproveMcp(d) => key == ConfirmKey(d.callId)
    case AskPermission(d) => key == PermissionKey(d.requestId)
    case AnswerPermission(id, _) => key == PermissionKey(id)
    case WithdrawPermission(id) => key == PermissionKey(id)
    case _ => false
  }

  lemma FramesToolCall(s: State, e: Event, key: CardKey, cfg: Config)
    requires Inv(s) && key != NoKey && e.ToolCallStarted? && !Touches(e, key)
    ensures Frames(s, Reduce(s, e, cfg), key, cfg)
  {
    hide RowsOf, Inv, CloseSegment, FinishStatus, CacheToolInput, Push, TruncateToRecent;
    FramesSettled(s, key, cfg);
    var s1 := CloseSegment(FinishStatus(s), cfg);
    CacheRows(s1, e.callId, e.arguments);
    var s2 := CacheToolInput(s1, e.callId, e.arguments);
    SameRowsAre(s1, s2, key, cfg);
    var d := ToolCardData(e.callId, e.toolName, e.action, None, None, e.arguments.summary, e.arguments.json,
                          true, None, "", "", [], None);
    FramesPush(s2, CardMessage(ToolCard(BoundTool(d, CardLimit(cfg)))), key, cfg);
  }

  lemma FramesObservation(s: State, obs: Observation, key: CardKey, cfg: Config)
    requires key != ToolKey(obs.callId)
    ensures Frames(s, ApplyObservation(s, obs, cfg), key, cfg)
  {
    hide RowsOf, Push, ReplaceCard, FindCard;
    var i := FindCard(s.messages, ToolKey(obs.callId));
    if i.Some? {
      FramesCard(s, ToolKey(obs.callId), ToolCard(Observed(s.messages[i.value].variant.card.tool, obs, cfg)), key, cfg);
    } else {
      var d := ToolCardData(obs.callId, obs.toolName, obs.action, None, None, "", "", false, None, "", "", [], None);
      FramesPush(s, CardMessage(ToolCard(Observed(d, obs, cfg))), key, cfg);
    }
  }

  lemma FramesFinishCall(s: State, callId: string, success: bool, key: CardKey, cfg: Config)
    requires key != ToolKey(callId)
    ensures Frames(s, FinishToolCall(s, callId, success), key, cfg)
  {
    hide RowsOf, ReplaceCard, FindCard, WithoutKey;
    var s1 := RemoveToolInput(s, callId);
    SameRowsAre(s, s1, key, cfg);
    var i := FindCard(s1.messages, ToolKey(callId));
    if i.Some? {
      FramesCard(s1, ToolKey(callId),
                 ToolCard(s1.messages[i.value].variant.card.tool.(running := false, success := Some(success))),
                 key, cfg);
    }
  }

  lemma PushThins(s: State, m: Message, key: CardKey, cfg: Config)
    requires Inv(s) && !IsCard(m, key)
    ensures Thins(s, EnforceBudget(Push(s, m), cfg), key, cfg)
  {
    hide RowsOf, Inv, EnforceBudget, Push, Frames, Thins;
    FramesPush(s, m, key, cfg);
    FramesThin(s, Push(s, m), key, cfg);
    PushKeeps(s, m);
    CheckThins(s, Push(s, m), key, cfg);
  }

  lemma FramedPushThins(s: State, t: State, m: Message, key: CardKey, cfg: Config)
    requires Frames(s, t, key, cfg) && Inv(t) && !IsCard(m, key)
    ensures Thins(s, EnforceBudget(Push(t, m), cfg), key, cfg)
  {
    hide RowsOf, Inv, EnforceBudget, Push, Frames, Thins;
    FramesThin(s, t, key, cfg);
    PushThins(t, m, key, cfg);
    ThinsThin(s, t, EnforceBudget(Push(t, m), cfg), key, cfg);
  }

  lemma FramedThins(s: State, t: State, key: CardKey, cfg: Config)
    requires Frames(s, t, key, cfg) && Inv(t)
    ensures Thins(s, EnforceBudget(t, cfg), key, cfg)
  {
    hide RowsOf, Inv, EnforceBudget, Frames, Thins;
    FramesThin(s, t, key, cfg);
    CheckThins(s, t, key, cfg);
  }

  lemma ConfirmThins(s: State, e: Event, key: CardKey, cfg: Config)
    requires Inv(s) && key != NoKey && e.NeedUserInput? && !Touches(e, key)
    ensures Thins(s, Reduce(s, e, cfg), key, cfg)
  {
    hide RowsOf, Inv, EnforceBudget, FinishStatus, Push, ConfirmInput, Frames, Thins, TruncateToRecent, BoundItems;
    FramesFinish(s, key, cfg);
    var s1 := FinishStatus(s);
    var input := ConfirmInput(s1, e.pendingCallId, e.requestedArguments);
    var d := ConfirmData(if e.pendingCallId.Some? then e.pendingCallId.value else "",
                         if e.requestedTool.Some? then e.requestedTool.value else "unknown",
                         e.pendingCalls, input.0, input.1, e.question, Pending);
    FramedPushThins(s, s1, CardMessage(ConfirmCard(BoundConfirm(d, CardLimit(cfg)))), key, cfg);
  }

  lemma NothingThins(s: State, key: CardKey, cfg: Config)
    ensures Thins(s, s, key, cfg)
  {
    SameRowsAre(s, s, key, cfg);
    FramesThin(s, s, key, cfg);
  }

  lemma ResolveThins(s: State, callId: string, approved: bool, key: CardKey, cfg: Config)
    requires Inv(s) && key != ConfirmKey(callId)
    ensures Thins(s, ResolveConfirm(s, callId, approved, cfg), key, cfg)
  {
    hide RowsOf, Inv, EnforceBudget, ReplaceCard, Frames, Thins, FindCard;
    var i := FindCard(s.messages, ConfirmKey(callId));
    if i.Some? {
      var d := s.messages[i.value].variant.card.confirm.(status := if approved then Approved else Rejected);
      FramesCard(s, ConfirmKey(callId), ConfirmCard(d), key, cfg);
      ReplaceCardKeeps(s, ConfirmKey(callId), ConfirmCard(d));
      FramedThins(s, ReplaceCard(s, ConfirmKey(callId), ConfirmCard(d)), key, cfg);
    } else {
      NothingThins(s, key, cfg);
    }
  }

  lemma FramesSubagentCard(s: State, next: SubAgentData, key: CardKey, cfg: Config)
    requires key != SubAgentKey(next.subagentId)
    ensures Frames(s, ReplaceCard(UpsertSubagent(s, next, cfg), SubAgentKey(next.subagentId), SubAgentCard(next)),
                   key, cfg)
  {
    hide RowsOf, ReplaceCard, BoundSubagent, TrimSubagents, FindSubagent;
    SameRowsAre(s, UpsertSubagent(s, next, cfg), key, cfg);
    FramesCard(UpsertSubagent(s, next, cfg), SubAgentKey(next.subagentId), SubAgentCard(next), key, cfg);
  }

  lemma FramesSubagent(s: State, e: Event, key: CardKey, cfg: Config)
    requires (e.SubAgentUpdated? || e.SubAgentFinished?) && !Touches(e, key)
    ensures Frames(s, Reduce(s, e, cfg), key, cfg)
  {
    hide RowsOf, ReplaceCard, UpsertSubagent, LookupSubagent;
    LookupHasId(s, e.subagentId);
    var d := LookupSubagent(s, e.subagentId);
    if d.Some? {
      var next := if e.SubAgentUpdated? then d.value.(summary := e.summary)
                  else d.value.(running := false, success := Some(e.success),
                                summary := if e.summary != "" then e.summary else d.value.summary);
      FramesSubagentCard(s, next, key, cfg);
    } else {
      SameRowsAre(s, s, key, cfg);
    }
  }

  lemma FramesSubagentStart(s: State, e: Event, key: CardKey, cfg: Config)
    requires Inv(s) && key != NoKey && e.SubAgentStarted? && !Touches(e, key)
    ensures Frames(s, Reduce(s, e, cfg), key, cfg)
  {
    hide RowsOf, Inv, CloseSegment, FinishStatus, Push, TruncateToRecent, TrimSubagents, FindSubagent;
    FramesSettled(s, key, cfg);
    var s1 := CloseSegment(FinishStatus(s), cfg);
    var d := BoundSubagent(SubAgentData(e.subagentId, e.name, e.task, true, None, ""), CardLimit(cfg));
    var s2 := UpsertSubagent(s1, d, cfg);
    SameRowsAre(s1, s2, key, cfg);
    FramesPush(s2, CardMessage(SubAgentCard(d)), key, cfg);
  }

  lemma FramesTurn(s: State, e: Event, key: CardKey, cfg: Config)
    requires Inv(s) && key != NoKey && (e.TurnStarted? || e.TurnCompleted? || e.TurnCancelled? || e.TurnFailed?)
    ensures Frames(s, Reduce(s, e, cfg), key, cfg)
  {
    hide RowsOf, Inv, CloseSegment, FinishStatus, Push, AppendDelta, AppendReasoning, FinalizeAssistant, EnforceBudget,
         UpsertStatus, UpsertPlan, PushSubagent, UpdateSubagent, FinishSubagent, PushToolCall, ApplyObservation,
         FinishToolCall, PushConfirm, ResolveConfirm;
    match e {
      case TurnStarted(_) => SameRowsAre(s, Reduce(s, e, cfg), key, cfg);
      case TurnCompleted(_) => FramesSettled(s, key, cfg);
      case TurnCancelled(_) =>
        FramesSettled(s, key, cfg);
        FramesPush(CloseSegment(FinishStatus(s), cfg), SystemMessage(cfg.cancelledText), key, cfg);
      case TurnFailed(_, reason) =>
        FramesFinish(s, key, cfg);
        var s1 := FinishStatus(s);
        SameRowsAre(s1, s1.(streamingId := None), key, cfg);
        FramesPush(s1.(streamingId := None), SystemMessage(cfg.failedText(reason)), key, cfg);
    }
  }

  lemma FramesSpeech(s: State, e: Event, key: CardKey, cfg: Config)
    requires Inv(s) && key != NoKey
    requires e.AssistantMessageDelta? || e.ReasoningDelta? || e.AssistantMessage? || e.StatusChanged?
             || (e.PlanUpdated? && key != PlanKey)
    ensures Frames(s, Reduce(s, e, cfg), key, cfg)
  {
    hide RowsOf, Inv, AppendDelta, AppendReasoning, FinalizeAssistant, UpsertStatus, UpsertPlan;
    match e {
      case AssistantMessageDelta(_, delta) => FramesText(s, delta, key, cfg);
      case ReasoningDelta(_, delta) => FramesThought(s, delta, key, cfg);
      case AssistantMessage(_, text, reasoning) => FramesFinal(s, text, reasoning, key, cfg);
      case StatusChanged(_, title, isDone) => FramesStatus(s, title, isDone, key, cfg);
      case PlanUpdated(_, plan) => FramesPlan(s, plan, key, cfg);
    }
  }

  lemma FramesCards(s: State, e: Event, key: CardKey, cfg: Config)
    requires Inv(s) && key != NoKey && !Touches(e, key)
    requires e.ToolCallStarted? || e.ObservationAdded? || e.ToolCallFinished? || e.SubAgentStarted?
             || e.SubAgentUpdated? || e.SubAgentFinished?
    ensures Frames(s, Reduce(s, e, cfg), key, cfg)
  {
    hide Inv, Frames, PushToolCall, ApplyObservation, FinishToolCall, PushSubagent, UpdateSubagent, FinishSubagent;
    if e.ToolCallStarted? {
      FramesToolCall(s, e, key, cfg);
    } else if e.ObservationAdded? {
      FramesObservation(s, e.observation, key, cfg);
    } else if e.ToolCallFinished? {
      FramesFinishCall(s, e.callId, e.success, key, cfg);
    } else if e.SubAgentStarted? {
      FramesSubagentStart(s, e, key, cfg);
    } else {
      FramesSubagent(s, e, key, cfg);
    }
  }

  lemma ReduceThins(s: State, e: Event, key: CardKey, cfg: Config)
    requires Inv(s) && key != NoKey && !Touches(e, key)
    ensures Thins(s, Reduce(s, e, cfg), key, cfg)
  {
    hide Inv, Frames, Thins, PushConfirm, ResolveConfirm, EnforceBudget, Push, AppendDelta, AppendReasoning,
         FinalizeAssistant, UpsertStatus, UpsertPlan, PushSubagent, UpdateSubagent, FinishSubagent, PushToolCall,
         ApplyObservation, FinishToolCall, CloseSegment, FinishStatus;
    if e.NeedUserInput? {
      ConfirmThins(s, e, key, cfg);
    } else if e.ToolApprovalResolved? {
      ResolveThins(s, e.callId, e.approved, key, cfg);
    } else if e.UserMessage? {
      PushThins(s, NewMessage(UserRole, cfg.userText(e.text), Text, false), key, cfg);
    } else {
      FramesOthers(s, e, key, cfg);
      FramesThin(s, Reduce(s, e, cfg), key, cfg);
    }
  }

  lemma FramesOthers(s: State, e: Event, key: CardKey, cfg: Config)
    requires Inv(s) && key != NoKey && !Touches(e, key)
    requires !e.NeedUserInput? && !e.ToolApprovalResolved? && !e.UserMessage?
    ensures Frames(s, Reduce(s, e, cfg), key, cfg)
  {
    hide Inv, Frames, Reduce;
    if e.TurnStarted? || e.TurnCompleted? || e.TurnCancelled? || e.TurnFailed? {
      FramesTurn(s, e, key, cfg);
    } else if e.AssistantMessageDelta? || e.ReasoningDelta? || e.AssistantMessage? || e.StatusChanged?
              || e.PlanUpdated? {
      FramesSpeech(s, e, key, cfg);
    } else {
      FramesCards(s, e, key, cfg);
    }
  }

  /** What happens around an event before it is reduced. */
  lemma FramesEntered(s: State, e: Event, key: CardKey, cfg: Config)
    requires Inv(s)
    ensures var u := Recorded(EnterTurn(s, e.turnId), e, cfg); Inv(u) && Frames(s, u, key, cfg)
    ensures Frames(s, EnterTurn(s, e.turnId), key, cfg)
  {
    hide Recorded, RowsOf;
    var s1 := EnterTurn(s, e.turnId);
    EnteredKeeps(s, e.turnId);
    RecordedRows(s1, e, cfg);
    SameRowsKeep(s1, Recorded(s1, e, cfg));
    SameRowsAre(s, s1, key, cfg);
    SameRowsAre(s, Recorded(s1, e, cfg), key, cfg);
  }

  lemma ApplyThins(s: State, e: Event, key: CardKey, cfg: Config)
    requires Inv(s) && key != NoKey && !Touches(e, key)
    ensures Thins(s, Apply(s, e, cfg), key, cfg)
  {
    hide Inv, Frames, Thins, Recorded, Reduce, EnforceBudget, EnterTurn, Repeats;
    FramesEntered(s, e, key, cfg);
    var s1 := EnterTurn(s, e.turnId);
    if Repeats(s1, e, cfg) {
      FramesThin(s, s1, key, cfg);
    } else {
      var u := Recorded(s1, e, cfg);
      FramesThin(s, u, key, cfg);
      ReduceThins(u, e, key, cfg);
      ThinsThin(s, u, Reduce(u, e, cfg), key, cfg);
      ReduceKeeps(u, e, cfg);
      CheckThins(s, Reduce(u, e, cfg), key, cfg);
    }
  }

  lemma AskThins(s: State, card: Card, key: CardKey, cfg: Config)
    requires Inv(s) && key != NoKey && KeyOf(card) != key
    ensures Thins(s, EnforceBudget(Push(CloseSegment(FinishStatus(s), cfg), CardMessage(card)), cfg), key, cfg)
  {
    hide Inv, Frames, Thins, EnforceBudget, Push, CloseSegment, FinishStatus;
    FramesSettled(s, key, cfg);
    FramedPushThins(s, CloseSegment(FinishStatus(s), cfg), CardMessage(card), key, cfg);
  }

  lemma McpThins(s: State, d: ConfirmData, key: CardKey, cfg: Config)
    requires Inv(s) && key != NoKey && key != ConfirmKey(d.callId)
    ensures Thins(s, PushMcpApproval(s, d, cfg), key, cfg)
  {
    hide Inv, Thins, EnforceBudget, Push, CloseSegment, FinishStatus, HasPendingConfirm, RowsOf, TruncateToRecent,
         BoundItems;
    if HasPendingConfirm(s, d.callId) {
      NothingThins(s, key, cfg);
    } else {
      var s1 := s.(publicMcpIds := s.publicMcpIds + {d.callId});
      SameRowsKeep(s, s1);
      SameRowsAre(s, s1, key, cfg);
      FramesThin(s, s1, key, cfg);
      AskThins(s1, ApprovalCard(d, cfg), key, cfg);
      ThinsThin(s, s1, PushMcpApproval(s, d, cfg), key, cfg);
    }
  }

  lemma PermissionThins(s: State, d: PermissionData, key: CardKey, cfg: Config)
    requires Inv(s) && key != NoKey && key != PermissionKey(d.requestId)
    ensures Thins(s, PushPermission(s, d, cfg), key, cfg)
  {
    hide Inv, Thins, EnforceBudget, Push, CloseSegment, FinishStatus, HasPendingPermission, TruncateToRecent,
         BoundOptions;
    if HasPendingPermission(s, d.requestId) {
      NothingThins(s, key, cfg);
    } else {
      AskThins(s, RequestCard(d, cfg), key, cfg);
    }
  }

  lemma DecideThins(s: State, requestId: string, status: Decision, name: string, key: CardKey, cfg: Config)
    requires Inv(s) && key != PermissionKey(requestId)
    ensures Thins(s, DecidePermission(s, requestId, status, name, cfg), key, cfg)
  {
    hide Inv, Frames, Thins, EnforceBudget, ReplaceFirstCard, FindFirstCard;
    var i := FindFirstCard(s.messages, PermissionKey(requestId));
    if i.Some? {
      var d := s.messages[i.value].variant.card.permission.(status := status, selectedOptionName := name);
      FramesFirstCard(s, PermissionKey(requestId), PermissionCard(d), key, cfg);
      ReplaceFirstCardKeeps(s, PermissionKey(requestId), PermissionCard(d));
      FramedThins(s, ReplaceFirstCard(s, PermissionKey(requestId), PermissionCard(d)), key, cfg);
    } else {
      NothingThins(s, key, cfg);
    }
  }

  lemma FramesAcpRow(s: State, title: string, key: CardKey, cfg: Config)
    requires Inv(s) && key != NoKey
    ensures Frames(s, WithAcpStatus(s, title), key, cfg)
  {
    hide RowsOf, HasTag;
    var i := PositionOf(s.messages, s.acpStatusId);
    if i.Some? {
      OneTag(s.messages, i.value, LiveStatus);
      Keyless(s.messages[i.value], key);
      FramesUpdate(s, i.value, s.messages[i.value].(variant := Status(title, false), isStreaming := true),
                   WithAcpStatus(s, title), key, cfg);
    } else {
      FramesStamped(s, [StatusMessage(title, false)], None, WithAcpStatus(s, title), key, cfg);
    }
  }

  lemma FramesErrorRow(s: State, text: string, key: CardKey, cfg: Config)
    requires Inv(s) && key != NoKey
    ensures Frames(s, WithAcpError(s, text), key, cfg)
  {
    hide RowsOf, HasTag;
    var i := PositionOf(s.messages, s.acpStatusId);
    if i.Some? {
      OneTag(s.messages, i.value, LiveStatus);
      Keyless(s.messages[i.value], key);
      FramesUpdate(s, i.value, SystemMessage(text).(id := s.messages[i.value].id), WithAcpError(s, text), key, cfg);
    } else {
      FramesStamped(s, [SystemMessage(text)], None, WithAcpError(s, text), key, cfg);
    }
  }

  lemma AcpStatusThins(s: State, title: string, key: CardKey, cfg: Config)
    requires Inv(s) && key != NoKey
    ensures Thins(s, SetAcpStatus(s, title, cfg), key, cfg)
  {
    hide Inv, Frames, Thins, EnforceBudget, WithAcpStatus;
    FramesAcpRow(s, title, key, cfg);
    AcpRowKeeps(s, title);
    FramedThins(s, WithAcpStatus(s, title), key, cfg);
  }

  lemma AcpErrorThins(s: State, text: string, key: CardKey, cfg: Config)
    requires Inv(s) && key != NoKey
    ensures Thins(s, SetAcpError(s, text, cfg), key, cfg)
  {
    hide Inv, RowsOf, Thins, EnforceBudget, WithAcpError, FinishStatus;
    FramesFinish(s, key, cfg);
    FramesErrorRow(FinishStatus(s), text, key, cfg);
    ErrorRowKeeps(FinishStatus(s), text);
    FramedThins(s, WithAcpError(FinishStatus(s), text), key, cfg);
  }

  lemma FailureThins(s: State, e: Event, text: string, key: CardKey, cfg: Config)
    requires Inv(s) && key != NoKey
    ensures Thins(s, FailAcp(s, e, text, cfg), key, cfg)
  {
    hide Inv, RowsOf, Thins, SetAcpError, Recorded, Repeats;
    if Repeats(s, e, cfg) {
      NothingThins(s, key, cfg);
    } else {
      RecordedRows(s, e, cfg);
      SameRowsKeep(s, Recorded(s, e, cfg));
      var u := Recorded(s, e, cfg).(streamingId := None);
      UnstreamedKeeps(Recorded(s, e, cfg));
      SameRowsAre(s, u, key, cfg);
      FramesThin(s, u, key, cfg);
      AcpErrorThins(u, text, key, cfg);
      ThinsThin(s, u, SetAcpError(u, text, cfg), key, cfg);
    }
  }

  lemma StatusOverThins(s: State, key: CardKey, cfg: Config)
    requires Inv(s) && key != NoKey
    ensures Thins(s, ClearAcpStatus(s), key, cfg)
  {
    hide Frames, Thins, WithoutId, HasTag;
    if s.acpStatusId.Some? {
      FramesWithout(s, s.acpStatusId.value, ClearAcpStatus(s), key, cfg);
      FramesThin(s, ClearAcpStatus(s), key, cfg);
    } else {
      NothingThins(s, key, cfg);
    }
  }

  lemma FlushThins(s: State, key: CardKey, cfg: Config)
    requires Inv(s)
    ensures Thins(s, EnforceBudget(s.(deferred := false), cfg), key, cfg)
  {
    hide RowsOf, Thins, EnforceBudget;
    var u := s.(deferred := false);
    assert Inv(u);
    SameRowsAre(s, u, key, cfg);
    FramedThins(s, u, key, cfg);
  }

  lemma {:induction false} AllGone(rows: seq<Row>, gone: set<nat>)
    requires forall i :: 0 <= i < |rows| ==> rows[i].id in gone
    ensures Except(rows, gone) == []
  {
    if rows != [] {
      AllGone(rows[1..], gone);
    }
  }

  lemma ClearThins(s: State, key: CardKey, cfg: Config)
    ensures Thins(s, Cleared(s), key, cfg)
  {
    var rows := RowsOf(s, key, cfg);
    var gone: set<nat> := set i | 0 <= i < |rows| :: rows[i].id;
    AllGone(rows, gone);
  }

  lemma RequestThins(s: State, a: Action, key: CardKey, cfg: Config)
    requires Inv(s) && key != NoKey && !Concerns(a, key)
    requires a.ApproveMcp? || a.AskPermission? || a.AnswerPermission? || a.WithdrawPermission?
    ensures Thins(s, Act(s, a, cfg), key, cfg)
  {
    hide Inv, Thins, PushMcpApproval, PushPermission, DecidePermission, Apply, SetAcpStatus, SetAcpError, FailAcp,
         ClearAcpStatus, Push, EnforceBudget;
    match a {
      case ApproveMcp(d) => McpThins(s, d, key, cfg);
      case AskPermission(d) => PermissionThins(s, d, key, cfg);
      case AnswerPermission(id, option) =>
        DecideThins(s, id, if "reject" <= option.kind then Rejected else Approved, option.name, key, cfg);
      case WithdrawPermission(id) => DecideThins(s, id, Cancelled, "", key, cfg);
    }
  }

  /** Whatever does not concern a call, request or subagent takes cards of it away at most. */
  lemma ActThins(s: State, a: Action, key: CardKey, cfg: Config)
    requires Inv(s) && key != NoKey && !Concerns(a, key)
    ensures Thins(s, Act(s, a, cfg), key, cfg)
  {
    hide Inv, Thins, RowsOf, PushMcpApproval, PushPermission, DecidePermission, Apply, SetAcpStatus, SetAcpError,
         FailAcp, ClearAcpStatus, Push, EnforceBudget, Cleared;
    match a {
      case ApplyEvent(e) => ApplyThins(s, e, key, cfg);
      case PushSystem(text) => PushThins(s, SystemMessage(text), key, cfg);
      case PushUser(text) => PushThins(s, NewMessage(UserRole, text, Text, false), key, cfg);
      case PushCompaction(text, n) => PushThins(s, CardMessage(CompactionCard(n, text)), key, cfg);
      case AcpStatus(title) => AcpStatusThins(s, title, key, cfg);
      case AcpError(text) => AcpErrorThins(s, text, key, cfg);
      case AcpFailure(e, text) => FailureThins(s, e, text, key, cfg);
      case AcpStatusOver => StatusOverThins(s, key, cfg);
      case Defer(on) =>
        SameRowsAre(s, Act(s, a, cfg), key, cfg);
        FramesThin(s, Act(s, a, cfg), key, cfg);
      case Flush => FlushOrNot(s, key, cfg);
      case Clear => ClearThins(s, key, cfg);
      case _ => RequestThins(s, a, key, cfg);
    }
  }

  lemma FlushOrNot(s: State, key: CardKey, cfg: Config)
    requires Inv(s)
    ensures Thins(s, if s.deferred then EnforceBudget(s.(deferred := false), cfg) else s, key, cfg)
  {
    hide Inv, Thins, EnforceBudget;
    FlushThins(s, key, cfg);
    NothingThins(s, key, cfg);
  }

  /** No action of the run concerns the key. */
  ghost predicate Apart(actions: seq<Action>, key: CardKey) {
    forall i :: 0 <= i < |actions| ==> !Concerns(actions[i], key)
  }

  /** Through any run that does not concern a key its cards stay as they are, up to the field limits, or go. */
  lemma {:induction false} RunThins(s: State, actions: seq<Action>, key: CardKey, cfg: Config)
    requires Inv(s) && key != NoKey && Apart(actions, key)
    ensures var t := RunFrom(s, actions, cfg); Inv(t) && Thins(s, t, key, cfg)
    decreases |actions|
  {
    hide Inv, Thins, Act, Concerns;
    if actions == [] {
      NothingThins(s, key, cfg);
    } else {
      var front, a := actions[..|actions| - 1], actions[|actions| - 1];
      RunThins(s, front, key, cfg);
      var t := RunFrom(s, front, cfg);
      ActKeeps(t, a, cfg);
      ActThins(t, a, key, cfg);
      ThinsThin(s, t, RunFrom(s, actions, cfg), key, cfg);
    }
  }
}
