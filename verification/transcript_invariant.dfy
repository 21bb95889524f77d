/**
 What every run of the transcript keeps: message ids are distinct, and each of the
 ids the transcript remembers names one message of the right kind.
 */
module TranscriptInvariant {
  import opened Basics
  import opened BoundedText
  import opened FencedBlocks
  import opened TranscriptState

  datatype Kind = LiveText | LiveStatus | PlanRow | Plain

  function KindOf(m: Message): Kind {
    match m.variant
    case Text => if m.role.AssistantRole? && m.isStreaming then LiveText else Plain
    case Status(_, isDone) => if !isDone && m.isStreaming then LiveStatus else Plain
    case CardOf(PlanCard(_)) => PlanRow
    case CardOf(_) => Plain
  }

  ghost predicate Distinct(ms: seq<Message>) {
    forall i, j :: 0 <= i < j < |ms| ==> ms[i].id != ms[j].id
  }

  ghost predicate Below(ms: seq<Message>, next: nat) {
    forall i :: 0 <= i < |ms| ==> ms[i].id < next
  }

  /** A message of this id and kind is in the list. */
  ghost predicate HasTag(ms: seq<Message>, id: int, kind: Kind) {
    exists i :: 0 <= i < |ms| && ms[i].id == id && KindOf(ms[i]) == kind
  }

  ghost predicate Names(ms: seq<Message>, id: Option<nat>, kind: Kind) {
    id.Some? ==> HasTag(ms, id.value, kind)
  }

  /** While the plan's message is there it is a plan row. */
  ghost predicate PlanOk(ms: seq<Message>, id: Option<nat>) {
    forall k :: id.Some? && HasTag(ms, id.value, k) ==> k == PlanRow
  }

  ghost predicate Inv(s: State) {
    && Distinct(s.messages) && Below(s.messages, s.nextId)
    && Names(s.messages, s.streamingId, LiveText)
    && Names(s.messages, s.activeStatusId, LiveStatus)
    && Names(s.messages, s.acpStatusId, LiveStatus)
    && (s.activeStatusId.Some? ==> s.activeStatusId != s.acpStatusId)
    && (s.planMessageId.Some? ==> s.planMessageId.value < s.nextId)
    && PlanOk(s.messages, s.planMessageId)
  }

  // ----- lists -----

  lemma OneTag(ms: seq<Message>, i: nat, k: Kind)
    requires Distinct(ms) && i < |ms|
    ensures HasTag(ms, ms[i].id, k) <==> k == KindOf(ms[i])
  {
  }

  lemma PositionIs(ms: seq<Message>, i: nat)
    requires Distinct(ms) && i < |ms|
    ensures Position(ms, ms[i].id) == Some(i)
  {
  }

  /** Replacing a message by one of the same id: only that id's kind can change. */
  lemma Updated(ms: seq<Message>, i: nat, m: Message)
    requires Distinct(ms) && i < |ms| && m.id == ms[i].id
    ensures Distinct(ms[i := m])
    ensures forall next :: Below(ms, next) ==> Below(ms[i := m], next)
    ensures forall id, k :: id != m.id || KindOf(m) == KindOf(ms[i]) ==>
              (HasTag(ms[i := m], id, k) <==> HasTag(ms, id, k))
    ensures HasTag(ms[i := m], m.id, KindOf(m))
  {
    var after := ms[i := m];
    assert after[i] == m;
    forall id, k | id != m.id || KindOf(m) == KindOf(ms[i])
      ensures HasTag(after, id, k) <==> HasTag(ms, id, k)
    {
      if HasTag(ms, id, k) {
        var j :| 0 <= j < |ms| && ms[j].id == id && KindOf(ms[j]) == k;
        assert after[j].id == id && KindOf(after[j]) == k;
      }
      if HasTag(after, id, k) {
        var j :| 0 <= j < |after| && after[j].id == id && KindOf(after[j]) == k;
        assert ms[j].id == id && KindOf(ms[j]) == k;
      }
    }
  }

  lemma Joined(a: seq<Message>, b: seq<Message>, id: int, k: Kind)
    ensures HasTag(a + b, id, k) <==> HasTag(a, id, k) || HasTag(b, id, k)
  {
    if HasTag(a, id, k) {
      var j :| 0 <= j < |a| && a[j].id == id && KindOf(a[j]) == k;
      assert (a + b)[j] == a[j];
    }
    if HasTag(b, id, k) {
      var j :| 0 <= j < |b| && b[j].id == id && KindOf(b[j]) == k;
      assert (a + b)[|a| + j] == b[j];
    }
  }

  /** New messages get ids no other message has. */
  lemma Stamped(ms: seq<Message>, more: seq<Message>, turn: Option<string>, next: nat)
    requires Distinct(ms) && Below(ms, next)
    ensures Distinct(ms + Stamp(more, turn, next)) && Below(ms + Stamp(more, turn, next), next + |more|)
    ensures forall id, k :: id < next ==> (HasTag(ms + Stamp(more, turn, next), id, k) <==> HasTag(ms, id, k))
    ensures forall i :: 0 <= i < |more| ==> HasTag(ms + Stamp(more, turn, next), next + i, KindOf(more[i]))
  {
    var new_ := Stamp(more, turn, next);
    forall id, k | id < next ensures HasTag(ms + new_, id, k) <==> HasTag(ms, id, k) {
      Joined(ms, new_, id, k);
    }
    forall i | 0 <= i < |more| ensures HasTag(ms + new_, next + i, KindOf(more[i])) {
      assert (ms + new_)[|ms| + i] == new_[i];
    }
  }

  /** Messages cut out of the middle: the others keep their kinds. */
  lemma CutOut(ms: seq<Message>, i: nat)
    requires Distinct(ms) && i < |ms|
    ensures var after := ms[..i] + ms[i + 1..];
            && Distinct(after) && (forall next :: Below(ms, next) ==> Below(after, next))
            && (forall id, k :: HasTag(after, id, k) <==> HasTag(ms, id, k) && id != ms[i].id)
  {
    var after := ms[..i] + ms[i + 1..];
    assert forall j :: 0 <= j < |after| ==> after[j] == ms[if j < i then j else j + 1];
    forall id, k ensures HasTag(after, id, k) <==> HasTag(ms, id, k) && id != ms[i].id {
      if HasTag(ms, id, k) && id != ms[i].id {
        var j :| 0 <= j < |ms| && ms[j].id == id && KindOf(ms[j]) == k;
        assert after[if j < i then j else j - 1] == ms[j];
      }
      if HasTag(after, id, k) {
        var j :| 0 <= j < |after| && after[j].id == id && KindOf(after[j]) == k;
        assert ms[if j < i then j else j + 1] == after[j];
      }
    }
  }

  /** Dropping an id is cutting its message out, if it is there at all. */
  lemma {:induction false} WithoutIdCuts(ms: seq<Message>, id: nat)
    requires Distinct(ms)
    ensures var i := Position(ms, id);
            WithoutId(ms, id) == if i.Some? then ms[..i.value] + ms[i.value + 1..] else ms
  {
    if ms != [] {
      var rest := ms[1..];
      WithoutIdCuts(rest, id);
      var i := Position(rest, id);
      if ms[0].id == id {
        assert i.None?;
      } else if i.Some? {
        CutBehind(ms, i.value);
      } else {
        assert ms == [ms[0]] + rest;
      }
    }
  }

  lemma CutBehind(ms: seq<Message>, i: nat)
    requires i + 1 < |ms|
    ensures [ms[0]] + (ms[1..][..i] + ms[1..][i + 1..]) == ms[..i + 1] + ms[i + 2..]
  {
  }

  lemma Dropped(ms: seq<Message>, id: nat)
    requires Distinct(ms)
    ensures Distinct(WithoutId(ms, id)) && (forall next :: Below(ms, next) ==> Below(WithoutId(ms, id), next))
    ensures forall x, k :: HasTag(WithoutId(ms, id), x, k) <==> HasTag(ms, x, k) && x != id
  {
    WithoutIdCuts(ms, id);
    var i := Position(ms, id);
    if i.Some? {
      CutOut(ms, i.value);
    }
  }

  // ----- states -----

  /** The tags are what they were: the invariant does not look further. */
  lemma SameTags(s: State, ms: seq<Message>)
    requires Inv(s) && Distinct(ms) && Below(ms, s.nextId)
    requires forall id, k :: HasTag(ms, id, k) <==> HasTag(s.messages, id, k)
    ensures Inv(s.(messages := ms))
  {
  }

  lemma InPlace(s: State, i: nat, m: Message)
    requires Inv(s) && i < |s.messages| && m.id == s.messages[i].id && KindOf(m) == KindOf(s.messages[i])
    ensures Inv(s.(messages := s.messages[i := m]))
  {
    Updated(s.messages, i, m);
    SameTags(s, s.messages[i := m]);
  }

  lemma PushKeeps(s: State, m: Message)
    requires Inv(s)
    ensures Inv(Push(s, m)) && HasTag(Push(s, m).messages, s.nextId, KindOf(m))
  {
    Stamped(s.messages, [m], s.currentTurn, s.nextId);
    assert [m][0] == m;
  }

  lemma FinishStatusKeeps(s: State)
    requires Inv(s)
    ensures Inv(FinishStatus(s))
  {
    if s.activeStatusId.Some? {
      Dropped(s.messages, s.activeStatusId.value);
      LiveIdsDiffer(s);
    }
  }

  /** The segment being written and the status rows are different messages. */
  lemma LiveIdsDiffer(s: State)
    requires Inv(s)
    ensures s.streamingId.Some? ==> s.streamingId != s.activeStatusId && s.streamingId != s.acpStatusId
    ensures s.planMessageId.Some? ==>
              s.planMessageId != s.streamingId && s.planMessageId != s.activeStatusId
              && s.planMessageId != s.acpStatusId
  {
    if s.streamingId.Some? {
      var i :| 0 <= i < |s.messages| && s.messages[i].id == s.streamingId.value && KindOf(s.messages[i]) == LiveText;
      OneTag(s.messages, i, LiveStatus);
    }
  }

  lemma SpliceTags(ms: seq<Message>, i: nat, more: seq<Message>, turn: Option<string>, next: nat)
    requires Distinct(ms) && Below(ms, next) && i < |ms|
    ensures var after := Splice(ms, i, Stamp(more, turn, next));
            && Distinct(after) && Below(after, next + |more|)
            && (forall id, k :: id < next ==> (HasTag(after, id, k) <==> HasTag(ms, id, k) && id != ms[i].id))
  {
    var new_ := Stamp(more, turn, next);
    var after := Splice(ms, i, new_);
    CutOut(ms, i);
    forall id, k | id < next ensures HasTag(after, id, k) <==> HasTag(ms, id, k) && id != ms[i].id {
      Joined(ms[..i] + new_, ms[i + 1..], id, k);
      Joined(ms[..i], new_, id, k);
      Joined(ms[..i], ms[i + 1..], id, k);
    }
  }

  lemma ReplaceByKeeps(s: State, i: nat, more: seq<Message>)
    requires Inv(s) && i < |s.messages|
    requires s.streamingId.None? && KindOf(s.messages[i]) == LiveText
    ensures Inv(ReplaceBy(s, i, more))
  {
    SpliceTags(s.messages, i, more, s.currentTurn, s.nextId);
    OneTag(s.messages, i, LiveStatus);
  }

  lemma StreamingAt(s: State)
    requires Inv(s)
    ensures var i := PositionOf(s.messages, s.streamingId);
            && (s.streamingId.Some? <==> i.Some?)
            && (i.Some? ==> KindOf(s.messages[i.value]) == LiveText)
  {
    var i := PositionOf(s.messages, s.streamingId);
    if i.Some? {
      OneTag(s.messages, i.value, LiveText);
    }
  }

  lemma CloseSegmentKeeps(s: State, cfg: Config)
    requires Inv(s)
    ensures Inv(CloseSegment(s, cfg))
    ensures CloseSegment(s, cfg).streamingId.None?
  {
    StreamingAt(s);
    var i := PositionOf(s.messages, s.streamingId);
    if i.Some? {
      ReplaceByKeeps(s.(streamingId := None), i.value,
                     Finished(s.messages[i.value].content, Some(s.messages[i.value].reasoning), cfg));
    }
  }

  lemma ReplaceCardKeeps(s: State, key: CardKey, card: Card)
    requires Inv(s) && key != NoKey && KeyOf(card) == key
    ensures Inv(ReplaceCard(s, key, card))
  {
    var i := FindCard(s.messages, key);
    if i.Some? {
      InPlace(s, i.value, s.messages[i.value].(variant := CardOf(card)));
    }
  }

  lemma ReplaceFirstCardKeeps(s: State, key: CardKey, card: Card)
    requires Inv(s) && key != NoKey && KeyOf(card) == key
    ensures Inv(ReplaceFirstCard(s, key, card))
  {
    var i := FindFirstCard(s.messages, key);
    if i.Some? {
      InPlace(s, i.value, s.messages[i.value].(variant := CardOf(card)));
    }
  }

  /** Changes outside messages and remembered ids do not matter. */
  ghost predicate SameRows(s: State, t: State) {
    && t.messages == s.messages && t.nextId == s.nextId && t.dropped == s.dropped
    && t.streamingId == s.streamingId && t.activeStatusId == s.activeStatusId
    && t.acpStatusId == s.acpStatusId && t.planMessageId == s.planMessageId
  }

  lemma SameRowsKeep(s: State, t: State)
    requires Inv(s) && SameRows(s, t)
    ensures Inv(t)
  {
  }

  // ----- the budget -----

  lemma TruncatedKind(m: Message, max: nat)
    ensures TruncateFields(m, max).id == m.id && KindOf(TruncateFields(m, max)) == KindOf(m)
  {
  }

  lemma TruncateAllKeeps(s: State, max: nat)
    requires Inv(s)
    ensures Inv(s.(messages := TruncateAll(s.messages, max)))
  {
    var ms, after := s.messages, TruncateAll(s.messages, max);
    forall i | 0 <= i < |ms| ensures after[i].id == ms[i].id && KindOf(after[i]) == KindOf(ms[i]) {
      TruncatedKind(ms[i], max);
    }
    SameTags(s, after);
  }

  lemma CutMessageKeeps(s: State, i: nat)
    requires Inv(s) && i < |s.messages|
    ensures Inv(CutMessage(s, i))
  {
    hide HasTag;
    CutOut(s.messages, i);
  }

  lemma RemoveMessageKeeps(s: State, i: nat)
    requires Inv(s) && i < |s.messages|
    ensures Inv(RemoveMessage(s, i))
  {
    hide Inv, WithoutKey;
    CutMessageKeeps(s, i);
    SameRowsKeep(CutMessage(s, i), RemoveMessage(s, i));
  }

  lemma {:induction false} EvictKeeps(s: State, cfg: Config)
    requires Inv(s)
    ensures Inv(Evict(s, cfg))
    decreases |s.messages|
  {
    hide Inv, OverBudget, Victim;
    if s.messages != [] && OverBudget(s.messages, cfg) {
      RemoveMessageKeeps(s, Victim(s));
      EvictKeeps(RemoveMessage(s, Victim(s)), cfg);
    }
  }

  lemma EnforceKeeps(s: State, cfg: Config)
    requires Inv(s)
    ensures Inv(EnforceBudget(s, cfg))
  {
    if !s.deferred {
      TruncateAllKeeps(s, cfg.maxFieldBytes);
      EvictKeeps(s.(messages := TruncateAll(s.messages, cfg.maxFieldBytes)), cfg);
    }
  }

  // ----- the reducers -----

  /** A segment rewritten under its id, or opened. */
  lemma PutKeeps(s: State, m: Message)
    requires Inv(s)
    requires var i := PositionOf(s.messages, s.streamingId);
             if i.Some? then KindOf(m) == KindOf(s.messages[i.value]) && m.id == s.messages[i.value].id
             else KindOf(m) == LiveText
    ensures Inv(PutOrOpen(s, PositionOf(s.messages, s.streamingId), m))
  {
    StreamingAt(s);
    var i := PositionOf(s.messages, s.streamingId);
    if i.Some? {
      InPlace(s, i.value, m);
    } else {
      PushKeeps(s, m);
    }
  }

  lemma AppendDeltaKeeps(s: State, delta: string, cfg: Config)
    requires Inv(s)
    ensures Inv(AppendDelta(s, delta, cfg))
  {
    hide Inv, FinishStatus, AppendBounded, PutOrOpen;
    FinishStatusKeeps(s);
    var s1 := FinishStatus(s);
    StreamingAt(s1);
    PutKeeps(s1, WithText(s1.messages, PositionOf(s1.messages, s1.streamingId), delta, cfg));
  }

  /** The second half of a reasoning delta, once it is known which segment it goes to. */
  lemma ReasoningGoesTo(s1: State, delta: string, cfg: Config)
    requires Inv(s1)
    ensures var i := PositionOf(s1.messages, s1.streamingId);
            Inv(PutOrOpen(s1, i, WithReasoning(s1.messages, i, delta, cfg)))
  {
    StreamingAt(s1);
    PutKeeps(s1, WithReasoning(s1.messages, PositionOf(s1.messages, s1.streamingId), delta, cfg));
  }

  lemma AppendReasoningKeeps(s: State, delta: string, cfg: Config)
    requires Inv(s)
    ensures Inv(AppendReasoning(s, delta, cfg))
  {
    FinishStatusKeeps(s);
    var s0 := FinishStatus(s);
    if SegmentHasText(s0) {
      ReasoningGoesTo(s0.(streamingId := None), delta, cfg);
    } else {
      ReasoningGoesTo(s0, delta, cfg);
    }
  }

  lemma FinalizeKeeps(s: State, text: string, reasoning: Option<string>, cfg: Config)
    requires Inv(s)
    ensures Inv(FinalizeAssistant(s, text, reasoning, cfg))
  {
    FinishStatusKeeps(s);
    var s1 := FinishStatus(s);
    StreamingAt(s1);
    var i := PositionOf(s1.messages, s1.streamingId);
    var s2 := s1.(streamingId := None);
    if i.Some? {
      var kept := if reasoning.Some? then reasoning.value else s1.messages[i.value].reasoning;
      ReplaceByKeeps(s2, i.value, Finished(text, Some(kept), cfg));
    } else {
      Stamped(s2.messages, Finished(text, reasoning, cfg), s2.currentTurn, s2.nextId);
    }
  }

  /** Replacing a row that is not the plan's leaves the plan's row what it is. */
  lemma PlanUntouched(s: State, i: nat, m: Message)
    requires Inv(s) && i < |s.messages| && m.id == s.messages[i].id && s.planMessageId != Some(m.id)
    ensures PlanOk(s.messages[i := m], s.planMessageId)
  {
    Updated(s.messages, i, m);
    var after := s.messages[i := m];
    if s.planMessageId.Some? {
      var plan := s.planMessageId.value;
      forall k | HasTag(after, plan, k) ensures k == PlanRow {
        assert HasTag(s.messages, plan, k);
      }
    }
  }

  lemma UpsertStatusKeeps(s: State, title: string, isDone: bool)
    requires Inv(s)
    ensures Inv(UpsertStatus(s, title, isDone))
  {
    var i := PositionOf(s.messages, s.activeStatusId);
    if i.Some? {
      var m := s.messages[i.value].(variant := Status(title, isDone), isStreaming := !isDone);
      OneTag(s.messages, i.value, LiveStatus);
      LiveIdsDiffer(s);
      assert s.planMessageId.Some? ==> s.planMessageId.value != m.id;
      Updated(s.messages, i.value, m);
      PlanUntouched(s, i.value, m);
    } else {
      PushKeeps(s, StatusMessage(title, isDone));
    }
  }

  lemma UpsertPlanKeeps(s: State, plan: PlanData)
    requires Inv(s)
    ensures Inv(UpsertPlan(s, plan))
  {
    hide Position, HasTag;
    var s1 := s.(latestPlan := Some(plan));
    var i := PositionOf(s1.messages, s1.planMessageId);
    if i.Some? {
      OneTag(s1.messages, i.value, KindOf(s1.messages[i.value]));
      InPlace(s1, i.value, s1.messages[i.value].(variant := CardOf(PlanCard(plan))));
    } else {
      PlanPushed(s1, CardMessage(PlanCard(plan)));
    }
  }

  lemma PlanPushed(s: State, m: Message)
    requires Inv(s) && KindOf(m) == PlanRow
    ensures Inv(Push(s, m).(planMessageId := Some(s.nextId)))
  {
    hide HasTag;
    PushKeeps(s, m);
    NewIdHasOneKind(s, m);
  }

  lemma NewIdHasOneKind(s: State, m: Message)
    requires Inv(s)
    ensures forall k :: HasTag(Push(s, m).messages, s.nextId, k) ==> k == KindOf(m)
  {
    Stamped(s.messages, [m], s.currentTurn, s.nextId);
    var after := Push(s, m).messages;
    assert after[|s.messages|].id == s.nextId;
    forall k | HasTag(after, s.nextId, k) ensures k == KindOf(m) {
      OneTag(after, |s.messages|, k);
    }
  }

  lemma {:induction false} TrimToolInputsRows(s: State)
    ensures SameRows(s, TrimToolInputs(s))
    decreases |s.toolInputOrder|
  {
    if |s.toolInputOrder| > MAX_CACHED_TOOL_INPUTS {
      TrimToolInputsRows(s.(toolInputs := s.toolInputs - {s.toolInputOrder[0]},
                            toolInputOrder := s.toolInputOrder[1..]));
    }
  }

  lemma CacheRows(s: State, callId: string, arguments: Arguments)
    ensures SameRows(s, CacheToolInput(s, callId, arguments))
  {
    var s1 := RemoveToolInput(s, callId);
    TrimToolInputsRows(s1.(toolInputs := s1.toolInputs[callId := arguments],
                           toolInputOrder := s1.toolInputOrder + [callId]));
  }

  lemma {:induction false} TrimTerminalsRows(s: State)
    ensures SameRows(s, TrimTerminals(s))
    decreases |s.terminalOrder|
  {
    if |s.terminalOrder| > MAX_TERMINAL_EVENTS {
      TrimTerminalsRows(s.(terminalEvents := s.terminalEvents - {s.terminalOrder[0]},
                           terminalOrder := s.terminalOrder[1..]));
    }
  }

  lemma RecordedRows(s: State, e: Event, cfg: Config)
    ensures SameRows(s, Recorded(s, e, cfg))
  {
    var key := TerminalKeyOf(e, cfg);
    if key.Some? && key.value !in s.terminalEvents {
      TrimTerminalsRows(s.(terminalEvents := s.terminalEvents + {key.value},
                           terminalOrder := s.terminalOrder + [key.value]));
    }
  }

  lemma SettledKeeps(s: State, cfg: Config)
    requires Inv(s)
    ensures Inv(CloseSegment(FinishStatus(s), cfg))
    ensures CloseSegment(FinishStatus(s), cfg).streamingId.None?
  {
    FinishStatusKeeps(s);
    CloseSegmentKeeps(FinishStatus(s), cfg);
  }

  lemma ToolCallKeeps(s: State, callId: string, name: string, action: ToolAction, arguments: Arguments, cfg: Config)
    requires Inv(s)
    ensures Inv(PushToolCall(s, callId, name, action, arguments, cfg))
  {
    SettledKeeps(s, cfg);
    var s1 := CloseSegment(FinishStatus(s), cfg);
    CacheRows(s1, callId, arguments);
    var s2 := CacheToolInput(s1, callId, arguments);
    SameRowsKeep(s1, s2);
    var d := ToolCardData(callId, name, action, None, None, arguments.summary, arguments.json,
                          true, None, "", "", [], None);
    PushKeeps(s2, CardMessage(ToolCard(BoundTool(d, CardLimit(cfg)))));
  }

  lemma ObservationKeeps(s: State, obs: Observation, cfg: Config)
    requires Inv(s)
    ensures Inv(ApplyObservation(s, obs, cfg))
  {
    var i := FindCard(s.messages, ToolKey(obs.callId));
    if i.Some? {
      ReplaceCardKeeps(s, ToolKey(obs.callId), ToolCard(Observed(s.messages[i.value].variant.card.tool, obs, cfg)));
    } else {
      var d := ToolCardData(obs.callId, obs.toolName, obs.action, None, None, "", "", false, None, "", "", [], None);
      PushKeeps(s, CardMessage(ToolCard(Observed(d, obs, cfg))));
    }
  }

  lemma FinishToolCallKeeps(s: State, callId: string, success: bool)
    requires Inv(s)
    ensures Inv(FinishToolCall(s, callId, success))
  {
    var s1 := RemoveToolInput(s, callId);
    SameRowsKeep(s, s1);
    var i := FindCard(s1.messages, ToolKey(callId));
    if i.Some? {
      ReplaceCardKeeps(s1, ToolKey(callId),
        ToolCard(s1.messages[i.value].variant.card.tool.(running := false, success := Some(success))));
    }
  }

  lemma PushAndEnforceKeeps(s: State, m: Message, cfg: Config)
    requires Inv(s)
    ensures Inv(EnforceBudget(Push(s, m), cfg))
  {
    PushKeeps(s, m);
    EnforceKeeps(Push(s, m), cfg);
  }

  lemma ConfirmKeeps(s: State, question: string, callId: Option<string>, name: Option<string>,
                     arguments: Option<Arguments>, items: seq<ConfirmItem>, cfg: Config)
    requires Inv(s)
    ensures Inv(PushConfirm(s, question, callId, name, arguments, items, cfg))
  {
    FinishStatusKeeps(s);
    var s1 := FinishStatus(s);
    var input := ConfirmInput(s1, callId, arguments);
    var d := ConfirmData(if callId.Some? then callId.value else "", if name.Some? then name.value else "unknown",
                         items, input.0, input.1, question, Pending);
    PushAndEnforceKeeps(s1, CardMessage(ConfirmCard(BoundConfirm(d, CardLimit(cfg)))), cfg);
  }

  lemma ResolveKeeps(s: State, callId: string, approved: bool, cfg: Config)
    requires Inv(s)
    ensures Inv(ResolveConfirm(s, callId, approved, cfg))
  {
    var i := FindCard(s.messages, ConfirmKey(callId));
    if i.Some? {
      var d := s.messages[i.value].variant.card.confirm.(status := if approved then Approved else Rejected);
      ReplaceCardKeeps(s, ConfirmKey(callId), ConfirmCard(d));
      EnforceKeeps(ReplaceCard(s, ConfirmKey(callId), ConfirmCard(d)), cfg);
    }
  }

  lemma SubagentReplaced(s: State, id: string, d: SubAgentData, cfg: Config)
    requires Inv(s) && d.subagentId == id
    ensures Inv(ReplaceCard(UpsertSubagent(s, d, cfg), SubAgentKey(id), SubAgentCard(d)))
  {
    ReplaceCardKeeps(UpsertSubagent(s, d, cfg), SubAgentKey(id), SubAgentCard(d));
  }

  /** A subagent is looked up under its own id. */
  lemma LookupHasId(s: State, id: string)
    ensures LookupSubagent(s, id).Some? ==> LookupSubagent(s, id).value.subagentId == id
  {
    FoundHasId(s.activeSubagents, id);
  }

  lemma {:induction false} FoundHasId(active: seq<SubAgentData>, id: string)
    ensures FindSubagent(active, id).Some? ==> active[FindSubagent(active, id).value].subagentId == id
  {
    if active != [] {
      FoundHasId(active[1..], id);
    }
  }

  lemma SubagentPushed(s: State, id: string, name: string, task: string, cfg: Config)
    requires Inv(s)
    ensures Inv(PushSubagent(s, id, name, task, cfg))
  {
    hide Inv, CloseSegment, FinishStatus, BoundSubagent, TrimSubagents, FindSubagent, Push;
    SettledKeeps(s, cfg);
    var s1 := CloseSegment(FinishStatus(s), cfg);
    var d := BoundSubagent(SubAgentData(id, name, task, true, None, ""), CardLimit(cfg));
    SameRowsKeep(s1, UpsertSubagent(s1, d, cfg));
    PushKeeps(UpsertSubagent(s1, d, cfg), CardMessage(SubAgentCard(d)));
  }

  lemma SubagentUpdated(s: State, id: string, summary: string, cfg: Config)
    requires Inv(s)
    ensures Inv(UpdateSubagent(s, id, summary, cfg))
  {
    hide Inv, LookupSubagent, UpsertSubagent, ReplaceCard;
    LookupHasId(s, id);
    var d := LookupSubagent(s, id);
    if d.Some? {
      SubagentReplaced(s, id, d.value.(summary := summary), cfg);
    }
  }

  lemma SubagentEnded(s: State, id: string, success: bool, summary: string, cfg: Config)
    requires Inv(s)
    ensures Inv(FinishSubagent(s, id, success, summary, cfg))
  {
    hide Inv, LookupSubagent, UpsertSubagent, ReplaceCard;
    LookupHasId(s, id);
    var d := LookupSubagent(s, id);
    if d.Some? {
      SubagentReplaced(s, id, d.value.(running := false, success := Some(success),
                                       summary := if summary != "" then summary else d.value.summary), cfg);
    }
  }

  lemma ProgressEventsKeep(s: State, e: Event, cfg: Config)
    requires Inv(s)
    requires e.PlanUpdated? || e.SubAgentStarted? || e.SubAgentUpdated? || e.SubAgentFinished?
    ensures Inv(Reduce(s, e, cfg))
  {
    hide Inv, UpsertPlan, PushSubagent, UpdateSubagent, FinishSubagent;
    match e {
      case PlanUpdated(_, plan) => UpsertPlanKeeps(s, plan);
      case SubAgentStarted(_, id, name, task) => SubagentPushed(s, id, name, task, cfg);
      case SubAgentUpdated(_, id, summary) => SubagentUpdated(s, id, summary, cfg);
      case SubAgentFinished(_, id, success, summary) => SubagentEnded(s, id, success, summary, cfg);
    }
  }

  lemma FailedTurnKeeps(s: State, m: Message)
    requires Inv(s)
    ensures Inv(Push(FinishStatus(s).(streamingId := None), m))
  {
    hide FinishStatus, Push;
    FinishStatusKeeps(s);
    PushKeeps(FinishStatus(s).(streamingId := None), m);
  }

  lemma TurnEndKeeps(s: State, e: Event, cfg: Config)
    requires Inv(s)
    requires e.TurnCompleted? || e.TurnCancelled? || e.TurnFailed?
    ensures Inv(Reduce(s, e, cfg))
  {
    hide Inv, CloseSegment, FinishStatus, Push;
    match e {
      case TurnCompleted(_) => SettledKeeps(s, cfg);
      case TurnCancelled(_) =>
        SettledKeeps(s, cfg);
        PushKeeps(CloseSegment(FinishStatus(s), cfg), SystemMessage(cfg.cancelledText));
      case TurnFailed(_, reason) => FailedTurnKeeps(s, SystemMessage(cfg.failedText(reason)));
    }
  }

  lemma ToolEventsKeep(s: State, e: Event, cfg: Config)
    requires Inv(s)
    requires e.ToolCallStarted? || e.ObservationAdded? || e.ToolCallFinished? || e.NeedUserInput?
             || e.ToolApprovalResolved?
    ensures Inv(Reduce(s, e, cfg))
  {
    hide Inv, PushToolCall, ApplyObservation, FinishToolCall, PushConfirm, ResolveConfirm;
    match e {
      case ToolCallStarted(_, callId, name, action, arguments) =>
        ToolCallKeeps(s, callId, name, action, arguments, cfg);
      case ObservationAdded(_, obs) => ObservationKeeps(s, obs, cfg);
      case ToolCallFinished(_, callId, success) => FinishToolCallKeeps(s, callId, success);
      case NeedUserInput(_, question, callId, name, arguments, items) =>
        ConfirmKeeps(s, question, callId, name, arguments, items, cfg);
      case ToolApprovalResolved(_, callId, approved) => ResolveKeeps(s, callId, approved, cfg);
    }
  }

  lemma SpeechEventsKeep(s: State, e: Event, cfg: Config)
    requires Inv(s)
    requires e.TurnStarted? || e.AssistantMessageDelta? || e.ReasoningDelta? || e.AssistantMessage? || e.UserMessage?
             || e.StatusChanged?
    ensures Inv(Reduce(s, e, cfg))
  {
    hide Inv, AppendDelta, AppendReasoning, FinalizeAssistant, EnforceBudget, UpsertStatus, Push;
    match e {
      case TurnStarted(_) => StartKeeps(s);
      case AssistantMessageDelta(_, delta) => AppendDeltaKeeps(s, delta, cfg);
      case ReasoningDelta(_, delta) => AppendReasoningKeeps(s, delta, cfg);
      case AssistantMessage(_, text, reasoning) => FinalizeKeeps(s, text, reasoning, cfg);
      case UserMessage(_, text) => PushAndEnforceKeeps(s, NewMessage(UserRole, cfg.userText(text), Text, false), cfg);
      case StatusChanged(_, title, isDone) => UpsertStatusKeeps(s, title, isDone);
    }
  }

  lemma StartKeeps(s: State)
    requires Inv(s)
    ensures Inv(s.(streamingId := None, activeStatusId := None))
  {
  }

  lemma ReduceKeeps(s: State, e: Event, cfg: Config)
    requires Inv(s)
    ensures Inv(Reduce(s, e, cfg))
  {
    hide Inv, Reduce;
    if e.TurnStarted? || e.AssistantMessageDelta? || e.ReasoningDelta? || e.AssistantMessage? || e.UserMessage?
       || e.StatusChanged? {
      SpeechEventsKeep(s, e, cfg);
    } else if e.PlanUpdated? || e.SubAgentStarted? || e.SubAgentUpdated? || e.SubAgentFinished? {
      ProgressEventsKeep(s, e, cfg);
    } else if e.TurnCompleted? || e.TurnCancelled? || e.TurnFailed? {
      TurnEndKeeps(s, e, cfg);
    } else {
      ToolEventsKeep(s, e, cfg);
    }
  }

  lemma ApplyKeeps(s: State, e: Event, cfg: Config)
    requires Inv(s)
    ensures Inv(Apply(s, e, cfg))
  {
    var s1 := EnterTurn(s, e.turnId);
    assert Inv(s1);
    if !Repeats(s1, e, cfg) {
      RecordedRows(s1, e, cfg);
      ReduceKeeps(Recorded(s1, e, cfg), e, cfg);
      EnforceKeeps(Reduce(Recorded(s1, e, cfg), e, cfg), cfg);
    }
  }

  // ----- the other entry points -----

  lemma StatusRowPushed(s: State, title: string)
    requires Inv(s)
    ensures Inv(s.(messages := s.messages + Stamp([StatusMessage(title, false)], None, s.nextId),
                   acpStatusId := Some(s.nextId), nextId := s.nextId + 1))
  {
    Stamped(s.messages, [StatusMessage(title, false)], None, s.nextId);
    assert [StatusMessage(title, false)][0] == StatusMessage(title, false);
  }

  lemma AcpRowKeeps(s: State, title: string)
    requires Inv(s)
    ensures Inv(WithAcpStatus(s, title))
  {
    hide HasTag;
    var i := PositionOf(s.messages, s.acpStatusId);
    if i.Some? {
      OneTag(s.messages, i.value, LiveStatus);
      InPlace(s, i.value, s.messages[i.value].(variant := Status(title, false), isStreaming := true));
    } else {
      StatusRowPushed(s, title);
    }
  }

  lemma AcpStatusKeeps(s: State, title: string, cfg: Config)
    requires Inv(s)
    ensures Inv(SetAcpStatus(s, title, cfg))
  {
    hide Inv, WithAcpStatus, EnforceBudget;
    AcpRowKeeps(s, title);
    EnforceKeeps(WithAcpStatus(s, title), cfg);
  }

  lemma AcpErrorKeeps(s: State, text: string, cfg: Config)
    requires Inv(s)
    ensures Inv(SetAcpError(s, text, cfg))
  {
    FinishStatusKeeps(s);
    ErrorRowKeeps(FinishStatus(s), text);
    EnforceKeeps(WithAcpError(FinishStatus(s), text), cfg);
  }

  lemma ErrorRowKeeps(s: State, text: string)
    requires Inv(s)
    ensures Inv(WithAcpError(s, text))
  {
    var i := PositionOf(s.messages, s.acpStatusId);
    LiveIdsDiffer(s);
    if i.Some? {
      var m := SystemMessage(text).(id := s.messages[i.value].id);
      assert s.acpStatusId == Some(m.id);
      assert s.planMessageId.Some? ==> s.planMessageId.value != m.id;
      assert s.streamingId.Some? ==> s.streamingId.value != m.id;
      assert s.activeStatusId.Some? ==> s.activeStatusId.value != m.id;
      Updated(s.messages, i.value, m);
      PlanUntouched(s, i.value, m);
    } else {
      Stamped(s.messages, [SystemMessage(text)], None, s.nextId);
    }
  }

  lemma McpKeeps(s: State, d: ConfirmData, cfg: Config)
    requires Inv(s)
    ensures Inv(PushMcpApproval(s, d, cfg))
  {
    hide Inv, EnforceBudget, CloseSegment, FinishStatus, ApprovalCard, HasPendingConfirm;
    if !HasPendingConfirm(s, d.callId) {
      var s1 := s.(publicMcpIds := s.publicMcpIds + {d.callId});
      SameRowsKeep(s, s1);
      SettledKeeps(s1, cfg);
      PushAndEnforceKeeps(CloseSegment(FinishStatus(s1), cfg), CardMessage(ApprovalCard(d, cfg)), cfg);
    }
  }

  lemma AskKeeps(s: State, d: PermissionData, cfg: Config)
    requires Inv(s)
    ensures Inv(PushPermission(s, d, cfg))
  {
    hide Inv, EnforceBudget, CloseSegment, FinishStatus, RequestCard, HasPendingPermission;
    if !HasPendingPermission(s, d.requestId) {
      SettledKeeps(s, cfg);
      PushAndEnforceKeeps(CloseSegment(FinishStatus(s), cfg), CardMessage(RequestCard(d, cfg)), cfg);
    }
  }

  lemma DecideKeeps(s: State, requestId: string, status: Decision, optionName: string, cfg: Config)
    requires Inv(s)
    ensures Inv(DecidePermission(s, requestId, status, optionName, cfg))
  {
    hide Inv, EnforceBudget, ReplaceFirstCard;
    var i := FindFirstCard(s.messages, PermissionKey(requestId));
    if i.Some? {
      var d := s.messages[i.value].variant.card.permission.(status := status, selectedOptionName := optionName);
      ReplaceFirstCardKeeps(s, PermissionKey(requestId), PermissionCard(d));
      EnforceKeeps(ReplaceFirstCard(s, PermissionKey(requestId), PermissionCard(d)), cfg);
    }
  }

  lemma FailureKeeps(s: State, e: Event, text: string, cfg: Config)
    requires Inv(s)
    ensures Inv(FailAcp(s, e, text, cfg))
  {
    hide EnforceBudget, SetAcpError, Recorded;
    RecordedRows(s, e, cfg);
    AcpErrorKeeps(Recorded(s, e, cfg).(streamingId := None), text, cfg);
  }

  lemma StatusOverKeeps(s: State)
    requires Inv(s)
    ensures Inv(ClearAcpStatus(s))
  {
    if s.acpStatusId.Some? {
      LiveIdsDiffer(s);
      Dropped(s.messages, s.acpStatusId.value);
    }
  }

  lemma FlushKeeps(s: State, cfg: Config)
    requires Inv(s)
    ensures Inv(EnforceBudget(s.(deferred := false), cfg))
  {
    hide EnforceBudget;
    EnforceKeeps(s.(deferred := false), cfg);
  }

  lemma ActKeeps(s: State, a: Action, cfg: Config)
    requires Inv(s)
    ensures Inv(Act(s, a, cfg))
  {
    hide Apply, EnforceBudget, PushMcpApproval, PushPermission, DecidePermission, SetAcpStatus, SetAcpError, FailAcp,
         ClearAcpStatus;
    match a {
      case ApplyEvent(e) => ApplyKeeps(s, e, cfg);
      case PushSystem(text) => PushAndEnforceKeeps(s, SystemMessage(text), cfg);
      case PushUser(text) => PushAndEnforceKeeps(s, NewMessage(UserRole, text, Text, false), cfg);
      case PushCompaction(text, n) => PushAndEnforceKeeps(s, CardMessage(CompactionCard(n, text)), cfg);
      case ApproveMcp(d) => McpKeeps(s, d, cfg);
      case AskPermission(d) => AskKeeps(s, d, cfg);
      case AnswerPermission(id, option) =>
        DecideKeeps(s, id, if "reject" <= option.kind then Rejected else Approved, option.name, cfg);
      case WithdrawPermission(id) => DecideKeeps(s, id, Cancelled, "", cfg);
      case AcpStatus(title) => AcpStatusKeeps(s, title, cfg);
      case AcpError(text) => AcpErrorKeeps(s, text, cfg);
      case AcpFailure(e, text) => FailureKeeps(s, e, text, cfg);
      case AcpStatusOver => StatusOverKeeps(s);
      case Defer(on) =>
      case Flush => FlushKeeps(s, cfg);
      case Clear =>
    }
  }

  lemma {:induction false} RunKeeps(actions: seq<Action>, cfg: Config)
    ensures Inv(Run(actions, cfg))
  {
    if actions != [] {
      RunKeeps(actions[..|actions| - 1], cfg);
      ActKeeps(Run(actions[..|actions| - 1], cfg), actions[|actions| - 1], cfg);
    }
  }

  /** Exactly one message carries the id, and it is as the predicate says. */
  ghost predicate NamesOne(ms: seq<Message>, id: nat, kind: Kind) {
    exists i :: 0 <= i < |ms| && ms[i].id == id && KindOf(ms[i]) == kind
                && forall j :: 0 <= j < |ms| && ms[j].id == id ==> j == i
  }

  /**
   After every run of actions: ids are distinct; the streaming id names one
   assistant text still marked streaming; the status ids each name one unfinished
   status row; all three are different; the plan id, while its row is there, names
   a plan row.
   */
  lemma EveryRunIsConsistent(actions: seq<Action>, cfg: Config)
    ensures var s := Run(actions, cfg);
            && (forall i, j :: 0 <= i < j < |s.messages| ==> s.messages[i].id != s.messages[j].id)
            && (s.streamingId.Some? ==> NamesOne(s.messages, s.streamingId.value, LiveText))
            && (s.activeStatusId.Some? ==> NamesOne(s.messages, s.activeStatusId.value, LiveStatus))
            && (s.acpStatusId.Some? ==> NamesOne(s.messages, s.acpStatusId.value, LiveStatus))
            && (s.streamingId.Some? ==> s.streamingId != s.activeStatusId && s.streamingId != s.acpStatusId)
            && (s.activeStatusId.Some? ==> s.activeStatusId != s.acpStatusId)
            && (forall i :: 0 <= i < |s.messages| && s.planMessageId == Some(s.messages[i].id) ==>
                  KindOf(s.messages[i]) == PlanRow)
  {
    RunKeeps(actions, cfg);
    var s := Run(actions, cfg);
    LiveIdsDiffer(s);
    forall i | 0 <= i < |s.messages| && s.planMessageId == Some(s.messages[i].id)
      ensures KindOf(s.messages[i]) == PlanRow
    {
      OneTag(s.messages, i, KindOf(s.messages[i]));
    }
  }
}
