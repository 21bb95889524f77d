/**
 A segment that was left open is never closed again: in every later run its message
 stays marked as streaming, with nothing pointing at it, until it is evicted or the
 transcript is cleared.
 */
module TranscriptStuck {
  import opened Basics
  import opened BoundedText
  import opened FencedBlocks
  import opened TranscriptState
  import opened TranscriptInvariant
  import opened TranscriptStream
  import opened TranscriptSegments

  /** The id of a message that is not being written: left open, or gone for good. */
  ghost predicate Past(s: State, id: nat) {
    && id < s.nextId && s.streamingId != Some(id)
    && (HasId(s.messages, id) ==> HasTag(s.messages, id, LiveText))
  }

  /** From ms to after the id keeps all its kinds or none. */
  ghost predicate KeepsOrGoes(ms: seq<Message>, after: seq<Message>, id: nat) {
    (forall k :: HasTag(after, id, k) <==> HasTag(ms, id, k)) || (forall k :: !HasTag(after, id, k))
  }

  lemma StillPast(s: State, t: State, id: nat)
    requires Past(s, id) && KeepsOrGoes(s.messages, t.messages, id)
    requires t.nextId >= s.nextId && t.streamingId != Some(id)
    ensures Past(t, id)
  {
    hide HasTag, HasId;
    HasIdHasTag(s.messages, id);
    HasIdHasTag(t.messages, id);
  }

  lemma PastRows(s: State, t: State, id: nat)
    requires Past(s, id) && t.messages == s.messages && t.nextId == s.nextId
    requires t.streamingId == s.streamingId || t.streamingId.None?
    ensures Past(t, id)
  {
  }

  /** A message of another kind is not the one left open. */
  lemma OtherKind(s: State, i: nat, id: nat)
    requires Inv(s) && Past(s, id) && i < |s.messages| && KindOf(s.messages[i]) != LiveText
    ensures s.messages[i].id != id
  {
    OneTag(s.messages, i, LiveText);
  }

  // ----- rows -----

  lemma PastPush(s: State, m: Message, id: nat)
    requires Inv(s) && Past(s, id)
    ensures Past(Push(s, m), id)
  {
    hide HasTag, HasId;
    Stamped(s.messages, [m], s.currentTurn, s.nextId);
    StillPast(s, Push(s, m), id);
  }

  lemma PastWithout(s: State, gone: nat, t: State, id: nat)
    requires Inv(s) && Past(s, id) && t.messages == WithoutId(s.messages, gone)
    requires t.nextId == s.nextId && t.streamingId == s.streamingId
    ensures Past(t, id)
  {
    hide HasTag, HasId, WithoutId;
    Dropped(s.messages, gone);
    StillPast(s, t, id);
  }

  lemma PastFinish(s: State, id: nat)
    requires Inv(s) && Past(s, id)
    ensures Inv(FinishStatus(s)) && Past(FinishStatus(s), id)
  {
    hide Past, Inv, WithoutId;
    FinishStatusKeeps(s);
    if s.activeStatusId.Some? {
      PastWithout(s, s.activeStatusId.value, FinishStatus(s), id);
    }
  }

  lemma PastUpdate(s: State, i: nat, m: Message, t: State, id: nat)
    requires Inv(s) && Past(s, id) && i < |s.messages| && m.id == s.messages[i].id
    requires m.id != id || KindOf(m) == KindOf(s.messages[i])
    requires t.messages == s.messages[i := m] && t.nextId == s.nextId && t.streamingId == s.streamingId
    ensures Past(t, id)
  {
    hide HasTag, HasId;
    Updated(s.messages, i, m);
    StillPast(s, t, id);
  }

  lemma PastReplaceBy(s: State, i: nat, more: seq<Message>, id: nat)
    requires Inv(s) && Past(s, id) && i < |s.messages| && s.messages[i].id != id
    ensures Past(ReplaceBy(s, i, more), id)
  {
    hide HasTag, HasId;
    SpliceTags(s.messages, i, more, s.currentTurn, s.nextId);
    StillPast(s, ReplaceBy(s, i, more), id);
  }

  lemma PastAppend(s: State, more: seq<Message>, t: State, id: nat)
    requires Inv(s) && Past(s, id) && t.messages == s.messages + Stamp(more, s.currentTurn, s.nextId)
    requires t.nextId == s.nextId + |more| && t.streamingId == s.streamingId
    ensures Past(t, id)
  {
    hide HasTag, HasId;
    Stamped(s.messages, more, s.currentTurn, s.nextId);
    StillPast(s, t, id);
  }

  lemma PastCard(s: State, key: CardKey, card: Card, id: nat)
    requires Inv(s) && Past(s, id) && key != NoKey && KeyOf(card) == key
    ensures Past(ReplaceCard(s, key, card), id)
  {
    hide Past, Inv;
    var i := FindCard(s.messages, key);
    if i.Some? {
      PastUpdate(s, i.value, s.messages[i.value].(variant := CardOf(card)), ReplaceCard(s, key, card), id);
    }
  }

  lemma {:induction false} EvictNext(s: State, cfg: Config)
    ensures Evict(s, cfg).nextId == s.nextId
    decreases |s.messages|
  {
    hide OverBudget, Victim;
    if s.messages != [] && OverBudget(s.messages, cfg) {
      EvictNext(RemoveMessage(s, Victim(s)), cfg);
    }
  }

  lemma PastEnforce(s: State, cfg: Config, id: nat)
    requires Inv(s) && Past(s, id)
    ensures Past(EnforceBudget(s, cfg), id)
  {
    hide HasTag, HasId, Inv, Evict;
    BudgetDrops(s, cfg, id);
    EvictNext(s.(messages := TruncateAll(s.messages, cfg.maxFieldBytes)), cfg);
  }

  // ----- the segment being written is another one -----

  lemma PlaceIsOther(s: State, id: nat)
    requires Inv(s) && Past(s, id)
    ensures var i := PositionOf(s.messages, s.streamingId); i.Some? ==> s.messages[i.value].id != id
  {
  }

  lemma PastClose(s: State, cfg: Config, id: nat)
    requires Inv(s) && Past(s, id)
    ensures Past(CloseSegment(s, cfg), id)
  {
    hide Past, Finished, Inv;
    var i := PositionOf(s.messages, s.streamingId);
    var s1 := s.(streamingId := None);
    PlaceIsOther(s, id);
    PastRows(s, s1, id);
    assert Inv(s1) by { UnstreamedKeeps(s); }
    if i.Some? {
      var m := s.messages[i.value];
      PastReplaceBy(s1, i.value, Finished(m.content, Some(m.reasoning), cfg), id);
    }
  }

  lemma UnstreamedKeeps(s: State)
    requires Inv(s)
    ensures Inv(s.(streamingId := None))
  {
  }

  lemma PastSettled(s: State, cfg: Config, id: nat)
    requires Inv(s) && Past(s, id)
    ensures var t := CloseSegment(FinishStatus(s), cfg); Inv(t) && Past(t, id)
  {
    hide Past, Inv, FinishStatus, CloseSegment;
    PastFinish(s, id);
    PastClose(FinishStatus(s), cfg, id);
    SettledKeeps(s, cfg);
  }

  lemma PastPut(s: State, m: Message, id: nat)
    requires Inv(s) && Past(s, id)
    requires var i := PositionOf(s.messages, s.streamingId); i.Some? ==> m.id == s.messages[i.value].id
    ensures Past(PutOrOpen(s, PositionOf(s.messages, s.streamingId), m), id)
  {
    hide HasTag, HasId;
    var i := PositionOf(s.messages, s.streamingId);
    PlaceIsOther(s, id);
    if i.Some? {
      PastUpdate(s, i.value, m, PutOrOpen(s, i, m), id);
    } else {
      PastPush(s, m, id);
    }
  }

  lemma PastText(s: State, delta: string, cfg: Config, id: nat)
    requires Inv(s) && Past(s, id)
    ensures Past(AppendDelta(s, delta, cfg), id)
  {
    hide Past, Inv, FinishStatus, AppendBounded;
    PastFinish(s, id);
    var s1 := FinishStatus(s);
    PastPut(s1, WithText(s1.messages, PositionOf(s1.messages, s1.streamingId), delta, cfg), id);
  }

  lemma PastThought(s: State, delta: string, cfg: Config, id: nat)
    requires Inv(s) && Past(s, id)
    ensures Past(AppendReasoning(s, delta, cfg), id)
  {
    hide Past, Inv, FinishStatus, AppendBounded, SegmentHasText;
    PastFinish(s, id);
    var s0 := FinishStatus(s);
    UnstreamedKeeps(s0);
    PastRows(s0, s0.(streamingId := None), id);
    var s1 := if SegmentHasText(s0) then s0.(streamingId := None) else s0;
    PastPut(s1, WithReasoning(s1.messages, PositionOf(s1.messages, s1.streamingId), delta, cfg), id);
  }

  lemma PastFinal(s: State, text: string, reasoning: Option<string>, cfg: Config, id: nat)
    requires Inv(s) && Past(s, id)
    ensures Past(FinalizeAssistant(s, text, reasoning, cfg), id)
  {
    hide Past, Inv, FinishStatus, Finished;
    PastFinish(s, id);
    var s1 := FinishStatus(s);
    var i := PositionOf(s1.messages, s1.streamingId);
    var s2 := s1.(streamingId := None);
    PlaceIsOther(s1, id);
    UnstreamedKeeps(s1);
    PastRows(s1, s2, id);
    if i.Some? {
      var kept := if reasoning.Some? then reasoning.value else s1.messages[i.value].reasoning;
      PastReplaceBy(s2, i.value, Finished(text, Some(kept), cfg), id);
    } else {
      PastAppend(s2, Finished(text, reasoning, cfg), FinalizeAssistant(s, text, reasoning, cfg), id);
    }
  }

  lemma PastStatus(s: State, title: string, isDone: bool, id: nat)
    requires Inv(s) && Past(s, id)
    ensures Past(UpsertStatus(s, title, isDone), id)
  {
    hide Past, HasTag;
    var i := PositionOf(s.messages, s.activeStatusId);
    if i.Some? {
      OneTag(s.messages, i.value, LiveStatus);
      OtherKind(s, i.value, id);
      var m := s.messages[i.value].(variant := Status(title, isDone), isStreaming := !isDone);
      PastUpdate(s, i.value, m, UpsertStatus(s, title, isDone), id);
    } else {
      PastPush(s, StatusMessage(title, isDone), id);
      PastRows(Push(s, StatusMessage(title, isDone)), UpsertStatus(s, title, isDone), id);
    }
  }

  lemma PastPlan(s: State, plan: PlanData, id: nat)
    requires Inv(s) && Past(s, id)
    ensures Past(UpsertPlan(s, plan), id)
  {
    hide Past, HasTag;
    var s1 := s.(latestPlan := Some(plan));
    assert Inv(s1);
    PastRows(s, s1, id);
    var i := PositionOf(s1.messages, s1.planMessageId);
    if i.Some? {
      OneTag(s1.messages, i.value, KindOf(s1.messages[i.value]));
      PastUpdate(s1, i.value, s1.messages[i.value].(variant := CardOf(PlanCard(plan))), UpsertPlan(s, plan), id);
    } else {
      PastPush(s1, CardMessage(PlanCard(plan)), id);
      PastRows(Push(s1, CardMessage(PlanCard(plan))), UpsertPlan(s, plan), id);
    }
  }

  lemma PastPushEnforced(s: State, m: Message, cfg: Config, id: nat)
    requires Inv(s) && Past(s, id)
    ensures Past(EnforceBudget(Push(s, m), cfg), id)
  {
    hide Past, Inv, EnforceBudget, Push;
    PastPush(s, m, id);
    PushKeeps(s, m);
    PastEnforce(Push(s, m), cfg, id);
  }

  lemma PastCardEnforced(s: State, key: CardKey, card: Card, cfg: Config, id: nat)
    requires Inv(s) && Past(s, id) && key != NoKey && KeyOf(card) == key
    ensures Past(EnforceBudget(ReplaceCard(s, key, card), cfg), id)
  {
    hide Past, Inv, EnforceBudget, ReplaceCard;
    PastCard(s, key, card, id);
    ReplaceCardKeeps(s, key, card);
    PastEnforce(ReplaceCard(s, key, card), cfg, id);
  }

  // ----- events -----

  lemma PastToolCall(s: State, e: Event, cfg: Config, id: nat)
    requires Inv(s) && Past(s, id) && e.ToolCallStarted?
    ensures Past(Reduce(s, e, cfg), id)
  {
    hide Past, Inv, CloseSegment, FinishStatus, CacheToolInput, Push, BoundTool;
    PastSettled(s, cfg, id);
    var s1 := CloseSegment(FinishStatus(s), cfg);
    var s2 := CacheToolInput(s1, e.callId, e.arguments);
    CacheRows(s1, e.callId, e.arguments);
    SameRowsKeep(s1, s2);
    PastRows(s1, s2, id);
    var d := ToolCardData(e.callId, e.toolName, e.action, None, None, e.arguments.summary, e.arguments.json,
                          true, None, "", "", [], None);
    PastPush(s2, CardMessage(ToolCard(BoundTool(d, CardLimit(cfg)))), id);
  }

  lemma PastObservation(s: State, obs: Observation, cfg: Config, id: nat)
    requires Inv(s) && Past(s, id)
    ensures Past(ApplyObservation(s, obs, cfg), id)
  {
    hide Past, Inv, Push, ReplaceCard;
    var i := FindCard(s.messages, ToolKey(obs.callId));
    if i.Some? {
      PastCard(s, ToolKey(obs.callId), ToolCard(Observed(s.messages[i.value].variant.card.tool, obs, cfg)), id);
    } else {
      var d := ToolCardData(obs.callId, obs.toolName, obs.action, None, None, "", "", false, None, "", "", [], None);
      PastPush(s, CardMessage(ToolCard(Observed(d, obs, cfg))), id);
    }
  }

  lemma PastFinishCall(s: State, callId: string, success: bool, id: nat)
    requires Inv(s) && Past(s, id)
    ensures Past(FinishToolCall(s, callId, success), id)
  {
    hide Past, Inv, ReplaceCard;
    var s1 := RemoveToolInput(s, callId);
    SameRowsKeep(s, s1);
    PastRows(s, s1, id);
    var i := FindCard(s1.messages, ToolKey(callId));
    if i.Some? {
      PastCard(s1, ToolKey(callId),
               ToolCard(s1.messages[i.value].variant.card.tool.(running := false, success := Some(success))), id);
    }
  }

  lemma PastConfirm(s: State, e: Event, cfg: Config, id: nat)
    requires Inv(s) && Past(s, id) && e.NeedUserInput?
    ensures Past(Reduce(s, e, cfg), id)
  {
    hide Past, Inv, EnforceBudget, FinishStatus, Push, BoundConfirm, ConfirmInput;
    PastFinish(s, id);
    var s1 := FinishStatus(s);
    var input := ConfirmInput(s1, e.pendingCallId, e.requestedArguments);
    var d := ConfirmData(if e.pendingCallId.Some? then e.pendingCallId.value else "",
                         if e.requestedTool.Some? then e.requestedTool.value else "unknown",
                         e.pendingCalls, input.0, input.1, e.question, Pending);
    PastPushEnforced(s1, CardMessage(ConfirmCard(BoundConfirm(d, CardLimit(cfg)))), cfg, id);
  }

  lemma PastResolve(s: State, callId: string, approved: bool, cfg: Config, id: nat)
    requires Inv(s) && Past(s, id)
    ensures Past(ResolveConfirm(s, callId, approved, cfg), id)
  {
    hide Past, Inv, EnforceBudget, ReplaceCard;
    var i := FindCard(s.messages, ConfirmKey(callId));
    if i.Some? {
      var d := s.messages[i.value].variant.card.confirm.(status := if approved then Approved else Rejected);
      PastCardEnforced(s, ConfirmKey(callId), ConfirmCard(d), cfg, id);
    }
  }

  lemma PastSubagentCard(s: State, next: SubAgentData, cfg: Config, id: nat)
    requires Inv(s) && Past(s, id)
    ensures Past(ReplaceCard(UpsertSubagent(s, next, cfg), SubAgentKey(next.subagentId), SubAgentCard(next)), id)
  {
    hide Past, Inv, ReplaceCard, BoundSubagent, TrimSubagents, FindSubagent;
    var s1 := UpsertSubagent(s, next, cfg);
    SameRowsKeep(s, s1);
    PastRows(s, s1, id);
    PastCard(s1, SubAgentKey(next.subagentId), SubAgentCard(next), id);
  }

  lemma PastSubagent(s: State, e: Event, cfg: Config, id: nat)
    requires Inv(s) && Past(s, id) && (e.SubAgentUpdated? || e.SubAgentFinished?)
    ensures Past(Reduce(s, e, cfg), id)
  {
    hide Past, Inv, ReplaceCard, UpsertSubagent, LookupSubagent;
    LookupHasId(s, e.subagentId);
    var d := LookupSubagent(s, e.subagentId);
    if d.Some? {
      var next := if e.SubAgentUpdated? then d.value.(summary := e.summary)
                  else d.value.(running := false, success := Some(e.success),
                                summary := if e.summary != "" then e.summary else d.value.summary);
      PastSubagentCard(s, next, cfg, id);
    }
  }

  lemma PastSubagentStart(s: State, e: Event, cfg: Config, id: nat)
    requires Inv(s) && Past(s, id) && e.SubAgentStarted?
    ensures Past(Reduce(s, e, cfg), id)
  {
    hide Past, Inv, CloseSegment, FinishStatus, Push, BoundSubagent, TrimSubagents, FindSubagent;
    PastSettled(s, cfg, id);
    var s1 := CloseSegment(FinishStatus(s), cfg);
    var d := BoundSubagent(SubAgentData(e.subagentId, e.name, e.task, true, None, ""), CardLimit(cfg));
    var s2 := UpsertSubagent(s1, d, cfg);
    SameRowsKeep(s1, s2);
    PastRows(s1, s2, id);
    PastPush(s2, CardMessage(SubAgentCard(d)), id);
  }

  lemma PastTurn(s: State, e: Event, cfg: Config, id: nat)
    requires Inv(s) && Past(s, id) && (e.TurnStarted? || e.TurnCompleted? || e.TurnCancelled? || e.TurnFailed?)
    ensures Past(Reduce(s, e, cfg), id)
  {
    hide Past, Inv, CloseSegment, FinishStatus, Push;
    match e {
      case TurnStarted(_) => PastRows(s, Reduce(s, e, cfg), id);
      case TurnCompleted(_) => PastSettled(s, cfg, id);
      case TurnCancelled(_) =>
        PastSettled(s, cfg, id);
        PastPush(CloseSegment(FinishStatus(s), cfg), SystemMessage(cfg.cancelledText), id);
      case TurnFailed(_, reason) =>
        PastFinish(s, id);
        var s1 := FinishStatus(s);
        UnstreamedKeeps(s1);
        PastRows(s1, s1.(streamingId := None), id);
        PastPush(s1.(streamingId := None), SystemMessage(cfg.failedText(reason)), id);
    }
  }

  lemma PastTool(s: State, e: Event, cfg: Config, id: nat)
    requires Inv(s) && Past(s, id)
    requires e.ObservationAdded? || e.ToolCallFinished? || e.ToolApprovalResolved? || e.UserMessage?
    ensures Past(Reduce(s, e, cfg), id)
  {
    hide Past, Inv, ApplyObservation, FinishToolCall, ResolveConfirm, EnforceBudget, Push;
    match e {
      case ObservationAdded(_, obs) => PastObservation(s, obs, cfg, id);
      case ToolCallFinished(_, callId, success) => PastFinishCall(s, callId, success, id);
      case ToolApprovalResolved(_, callId, approved) => PastResolve(s, callId, approved, cfg, id);
      case UserMessage(_, text) => PastPushEnforced(s, NewMessage(UserRole, cfg.userText(text), Text, false), cfg, id);
    }
  }

  lemma PastSpeech(s: State, e: Event, cfg: Config, id: nat)
    requires Inv(s) && Past(s, id) && (IsDelta(e) || e.AssistantMessage? || e.StatusChanged? || e.PlanUpdated?)
    ensures Past(Reduce(s, e, cfg), id)
  {
    hide Past, Inv, AppendDelta, AppendReasoning, FinalizeAssistant, UpsertStatus, UpsertPlan;
    match e {
      case AssistantMessageDelta(_, delta) => PastText(s, delta, cfg, id);
      case ReasoningDelta(_, delta) => PastThought(s, delta, cfg, id);
      case AssistantMessage(_, text, reasoning) => PastFinal(s, text, reasoning, cfg, id);
      case StatusChanged(_, title, isDone) => PastStatus(s, title, isDone, id);
      case PlanUpdated(_, plan) => PastPlan(s, plan, id);
    }
  }

  lemma PastReduce(s: State, e: Event, cfg: Config, id: nat)
    requires Inv(s) && Past(s, id)
    ensures Past(Reduce(s, e, cfg), id)
  {
    hide Past, Inv, Reduce;
    if IsDelta(e) || e.AssistantMessage? || e.StatusChanged? || e.PlanUpdated? {
      PastSpeech(s, e, cfg, id);
    } else if e.TurnStarted? || e.TurnCompleted? || e.TurnCancelled? || e.TurnFailed? {
      PastTurn(s, e, cfg, id);
    } else if e.ToolCallStarted? {
      PastToolCall(s, e, cfg, id);
    } else if e.NeedUserInput? {
      PastConfirm(s, e, cfg, id);
    } else if e.SubAgentStarted? {
      PastSubagentStart(s, e, cfg, id);
    } else if e.SubAgentUpdated? || e.SubAgentFinished? {
      PastSubagent(s, e, cfg, id);
    } else {
      PastTool(s, e, cfg, id);
    }
  }

  lemma PastRecorded(s: State, e: Event, cfg: Config, id: nat)
    requires Inv(s) && Past(s, id)
    ensures Inv(Recorded(s, e, cfg)) && Past(Recorded(s, e, cfg), id)
  {
    hide Past, Inv, Recorded;
    RecordedRows(s, e, cfg);
    SameRowsKeep(s, Recorded(s, e, cfg));
    PastRows(s, Recorded(s, e, cfg), id);
  }

  lemma EnteredKeeps(s: State, turn: string)
    requires Inv(s)
    ensures Inv(EnterTurn(s, turn))
  {
  }

  lemma PastApply(s: State, e: Event, cfg: Config, id: nat)
    requires Inv(s) && Past(s, id)
    ensures Past(Apply(s, e, cfg), id)
  {
    hide Past, Inv, Recorded, Reduce, EnforceBudget, Repeats;
    var s1 := EnterTurn(s, e.turnId);
    EnteredKeeps(s, e.turnId);
    PastRows(s, s1, id);
    if !Repeats(s1, e, cfg) {
      PastRecorded(s1, e, cfg, id);
      var u := Recorded(s1, e, cfg);
      PastReduce(u, e, cfg, id);
      ReduceKeeps(u, e, cfg);
      PastEnforce(Reduce(u, e, cfg), cfg, id);
    }
  }

  // ----- the other actions -----

  lemma PastAsk(s: State, card: Card, cfg: Config, id: nat)
    requires Inv(s) && Past(s, id)
    ensures Past(EnforceBudget(Push(CloseSegment(FinishStatus(s), cfg), CardMessage(card)), cfg), id)
  {
    hide Past, Inv, EnforceBudget, Push, CloseSegment, FinishStatus;
    PastSettled(s, cfg, id);
    PastPushEnforced(CloseSegment(FinishStatus(s), cfg), CardMessage(card), cfg, id);
  }

  lemma PastMcp(s: State, d: ConfirmData, cfg: Config, id: nat)
    requires Inv(s) && Past(s, id)
    ensures Past(PushMcpApproval(s, d, cfg), id)
  {
    hide Past, Inv, EnforceBudget, Push, CloseSegment, FinishStatus, ApprovalCard, HasPendingConfirm;
    var s1 := s.(publicMcpIds := s.publicMcpIds + {d.callId});
    SameRowsKeep(s, s1);
    PastRows(s, s1, id);
    PastAsk(s1, ApprovalCard(d, cfg), cfg, id);
  }

  lemma PastPermission(s: State, d: PermissionData, cfg: Config, id: nat)
    requires Inv(s) && Past(s, id)
    ensures Past(PushPermission(s, d, cfg), id)
  {
    hide Past, Inv, EnforceBudget, Push, CloseSegment, FinishStatus, RequestCard, HasPendingPermission;
    PastAsk(s, RequestCard(d, cfg), cfg, id);
  }

  lemma PastDecide(s: State, requestId: string, status: Decision, name: string, cfg: Config, id: nat)
    requires Inv(s) && Past(s, id)
    ensures Past(DecidePermission(s, requestId, status, name, cfg), id)
  {
    hide Past, Inv, EnforceBudget;
    var i := FindFirstCard(s.messages, PermissionKey(requestId));
    if i.Some? {
      var m := s.messages[i.value];
      var d := m.variant.card.permission.(status := status, selectedOptionName := name);
      var t := ReplaceFirstCard(s, PermissionKey(requestId), PermissionCard(d));
      PastUpdate(s, i.value, m.(variant := CardOf(PermissionCard(d))), t, id);
      ReplaceFirstCardKeeps(s, PermissionKey(requestId), PermissionCard(d));
      PastEnforce(t, cfg, id);
    }
  }

  lemma StampNone(s: State, m: Message, t: State, id: nat)
    requires Inv(s) && Past(s, id) && t.messages == s.messages + Stamp([m], None, s.nextId)
    requires t.nextId == s.nextId + 1 && t.streamingId == s.streamingId
    ensures Past(t, id)
  {
    hide HasTag, HasId;
    Stamped(s.messages, [m], None, s.nextId);
    StillPast(s, t, id);
  }

  lemma PastAcpRow(s: State, title: string, id: nat)
    requires Inv(s) && Past(s, id)
    ensures Past(WithAcpStatus(s, title), id)
  {
    hide Past, HasTag;
    var i := PositionOf(s.messages, s.acpStatusId);
    if i.Some? {
      OneTag(s.messages, i.value, LiveStatus);
      OtherKind(s, i.value, id);
      PastUpdate(s, i.value, s.messages[i.value].(variant := Status(title, false), isStreaming := true),
                 WithAcpStatus(s, title), id);
    } else {
      StampNone(s, StatusMessage(title, false), WithAcpStatus(s, title), id);
    }
  }

  lemma PastErrorRow(s: State, text: string, id: nat)
    requires Inv(s) && Past(s, id)
    ensures Past(WithAcpError(s, text), id)
  {
    hide Past, HasTag;
    var i := PositionOf(s.messages, s.acpStatusId);
    if i.Some? {
      OneTag(s.messages, i.value, LiveStatus);
      OtherKind(s, i.value, id);
      PastUpdate(s, i.value, SystemMessage(text).(id := s.messages[i.value].id), WithAcpError(s, text), id);
    } else {
      StampNone(s, SystemMessage(text), WithAcpError(s, text), id);
    }
  }

  lemma PastAcpStatus(s: State, title: string, cfg: Config, id: nat)
    requires Inv(s) && Past(s, id)
    ensures Past(SetAcpStatus(s, title, cfg), id)
  {
    hide Past, Inv, EnforceBudget, WithAcpStatus;
    PastAcpRow(s, title, id);
    AcpRowKeeps(s, title);
    PastEnforce(WithAcpStatus(s, title), cfg, id);
  }

  lemma PastAcpError(s: State, text: string, cfg: Config, id: nat)
    requires Inv(s) && Past(s, id)
    ensures Past(SetAcpError(s, text, cfg), id)
  {
    hide Past, Inv, EnforceBudget, WithAcpError, FinishStatus;
    PastFinish(s, id);
    PastErrorRow(FinishStatus(s), text, id);
    ErrorRowKeeps(FinishStatus(s), text);
    PastEnforce(WithAcpError(FinishStatus(s), text), cfg, id);
  }

  lemma PastFailure(s: State, e: Event, text: string, cfg: Config, id: nat)
    requires Inv(s) && Past(s, id)
    ensures Past(FailAcp(s, e, text, cfg), id)
  {
    hide Past, Inv, SetAcpError, Recorded;
    PastRecorded(s, e, cfg, id);
    var u := Recorded(s, e, cfg);
    UnstreamedKeeps(u);
    PastRows(u, u.(streamingId := None), id);
    PastAcpError(u.(streamingId := None), text, cfg, id);
  }

  lemma PastStatusOver(s: State, id: nat)
    requires Inv(s) && Past(s, id)
    ensures Past(ClearAcpStatus(s), id)
  {
    hide Past, Inv, WithoutId;
    if s.acpStatusId.Some? {
      PastWithout(s, s.acpStatusId.value, ClearAcpStatus(s), id);
    }
  }

  lemma PastFlush(s: State, cfg: Config, id: nat)
    requires Inv(s) && Past(s, id)
    ensures Past(EnforceBudget(s.(deferred := false), cfg), id)
  {
    hide Past, EnforceBudget;
    var u := s.(deferred := false);
    assert Inv(u);
    PastRows(s, u, id);
    PastEnforce(u, cfg, id);
  }

  lemma PastCleared(s: State, id: nat)
    requires Past(s, id)
    ensures Past(Cleared(s), id)
  {
  }

  lemma PastRequests(s: State, a: Action, cfg: Config, id: nat)
    requires Inv(s) && Past(s, id)
    requires a.ApproveMcp? || a.AskPermission? || a.AnswerPermission? || a.WithdrawPermission?
    ensures Past(Act(s, a, cfg), id)
  {
    hide Past, Inv, PushMcpApproval, PushPermission, DecidePermission, Apply, SetAcpStatus, SetAcpError, FailAcp,
         ClearAcpStatus, Push, EnforceBudget;
    match a {
      case ApproveMcp(d) => PastMcp(s, d, cfg, id);
      case AskPermission(d) => PastPermission(s, d, cfg, id);
      case AnswerPermission(requestId, option) =>
        PastDecide(s, requestId, if "reject" <= option.kind then Rejected else Approved, option.name, cfg, id);
      case WithdrawPermission(requestId) => PastDecide(s, requestId, Cancelled, "", cfg, id);
    }
  }

  lemma PastAct(s: State, a: Action, cfg: Config, id: nat)
    requires Inv(s) && Past(s, id)
    ensures Past(Act(s, a, cfg), id)
  {
    hide Past, Inv, PushMcpApproval, PushPermission, DecidePermission, Apply, SetAcpStatus, SetAcpError, FailAcp,
         ClearAcpStatus, Push, EnforceBudget, Cleared;
    match a {
      case ApplyEvent(e) => PastApply(s, e, cfg, id);
      case PushSystem(text) => PastPushEnforced(s, SystemMessage(text), cfg, id);
      case PushUser(text) => PastPushEnforced(s, NewMessage(UserRole, text, Text, false), cfg, id);
      case PushCompaction(text, n) => PastPushEnforced(s, CardMessage(CompactionCard(n, text)), cfg, id);
      case AcpStatus(title) => PastAcpStatus(s, title, cfg, id);
      case AcpError(text) => PastAcpError(s, text, cfg, id);
      case AcpFailure(e, text) => PastFailure(s, e, text, cfg, id);
      case AcpStatusOver => PastStatusOver(s, id);
      case Defer(on) => PastRows(s, Act(s, a, cfg), id);
      case Flush => PastFlush(s, cfg, id);
      case Clear => PastCleared(s, id);
      case _ => PastRequests(s, a, cfg, id);
    }
  }

  /** The actions one after another, from any state. */
  function RunFrom(s: State, actions: seq<Action>, cfg: Config): State
    decreases |actions|
  {
    if actions == [] then s else Act(RunFrom(s, actions[..|actions| - 1], cfg), actions[|actions| - 1], cfg)
  }

  lemma {:induction false} RunStaysPast(s: State, actions: seq<Action>, cfg: Config, id: nat)
    requires Inv(s) && Past(s, id)
    ensures var t := RunFrom(s, actions, cfg); Inv(t) && Past(t, id)
    decreases |actions|
  {
    hide Past, Inv, Act;
    if actions != [] {
      var front, a := actions[..|actions| - 1], actions[|actions| - 1];
      RunStaysPast(s, front, cfg, id);
      ActKeeps(RunFrom(s, front, cfg), a, cfg);
      PastAct(RunFrom(s, front, cfg), a, cfg, id);
    }
  }

  /**
   Whatever comes later, a message left open stays open: it is marked as streaming and
   nothing points at it exactly as long as it is there at all.
   */
  lemma LeftOpenForGood(s: State, actions: seq<Action>, cfg: Config, id: nat)
    requires Inv(s) && LeftOpen(s, id)
    ensures var t := RunFrom(s, actions, cfg); LeftOpen(t, id) <==> HasId(t.messages, id)
  {
    hide Inv, RunFrom;
    assert Past(s, id) by { OpenIsPast(s, id); }
    RunStaysPast(s, actions, cfg, id);
    var t := RunFrom(s, actions, cfg);
    if LeftOpen(t, id) {
      TagHasId(t.messages, id, LiveText);
    }
  }

  lemma OpenIsPast(s: State, id: nat)
    requires Inv(s) && LeftOpen(s, id)
    ensures Past(s, id)
  {
    var i :| 0 <= i < |s.messages| && s.messages[i].id == id && KindOf(s.messages[i]) == LiveText;
  }
}
