/**
 `AgentTranscript` of `agent_transcript.rs` with its fields, updated in place. Every
 method is tied to the state function of the same operation in `TranscriptState`,
 about which the laws are proved.
 */
module Transcript {
  import opened Basics
  import opened BoundedText
  import opened FencedBlocks
  import opened TranscriptState

  /** The search for a card from message i on. */
  lemma FirstCardFrom(ms: seq<Message>, i: nat, key: CardKey)
    requires i <= |ms|
    ensures FindFirstCard(ms[i..], key) ==
            if i == |ms| then None
            else if ms[i].variant.CardOf? && KeyOf(ms[i].variant.card) == key then Some(0)
            else
              var rest := FindFirstCard(ms[i + 1..], key);
              if rest.Some? then Some(rest.value + 1) else None
  {
    hide KeyOf;
    if i < |ms| {
      TailStep(ms, i);
    }
  }

  class AgentTranscript {
    const cfg: Config
    var messages: seq<Message>
    var currentTurn: Option<string>
    var droppedMessages: nat
    var streamingId: Option<nat>
    var activeStatusId: Option<nat>
    var acpStatusId: Option<nat>
    var latestPlan: Option<PlanData>
    var planMessageId: Option<nat>
    var activeSubagents: seq<SubAgentData>
    var toolInputs: map<string, Arguments>
    var toolInputOrder: seq<string>
    var publicMcpIds: set<string>
    var terminalEvents: set<TerminalKey>
    var terminalEventOrder: seq<TerminalKey>
    var budgetDeferred: bool
    /** The next fresh message id. */
    var nextId: nat

    ghost function Now(): State
      reads this
    {
      State(messages, currentTurn, droppedMessages, streamingId, activeStatusId, acpStatusId, latestPlan,
            planMessageId, activeSubagents, toolInputs, toolInputOrder, publicMcpIds, terminalEvents,
            terminalEventOrder, budgetDeferred, nextId)
    }

    constructor (cfg: Config)
      ensures this.cfg == cfg && Now() == EMPTY
    {
      this.cfg := cfg;
      messages, currentTurn, droppedMessages := [], None, 0;
      streamingId, activeStatusId, acpStatusId, latestPlan, planMessageId := None, None, None, None, None;
      activeSubagents, toolInputs, toolInputOrder, publicMcpIds := [], map[], [], {};
      terminalEvents, terminalEventOrder, budgetDeferred, nextId := {}, [], false, 0;
    }

    method Clear()
      modifies this
      ensures Now() == Cleared(old(Now()))
    {
      ClearMemories();
      messages := [];
      droppedMessages := 0;
      currentTurn := None;
      streamingId := None;
      activeStatusId := None;
      acpStatusId := None;
      latestPlan := None;
      planMessageId := None;
      activeSubagents := [];
    }

    method ClearMemories()
      modifies this
      ensures Now() == Forgotten(old(Now()))
    {
      toolInputs := map[];
      toolInputOrder := [];
      publicMcpIds := {};
      terminalEvents := {};
      terminalEventOrder := [];
    }

    // ----- lookups -----

    method FindMessage(id: Option<nat>) returns (index: Option<nat>)
      ensures index == PositionOf(messages, id)
    {
      if id.None? {
        return None;
      }
      for i := 0 to |messages|
        invariant Position(messages, id.value) ==
                  var rest := Position(messages[i..], id.value); if rest.Some? then Some(i + rest.value) else None
      {
        assert messages[i..][0] == messages[i] && messages[i..][1..] == messages[i + 1..];
        if messages[i].id == id.value {
          return Some(i);
        }
      }
      return None;
    }

    method FindLastCard(key: CardKey) returns (index: Option<nat>)
      ensures index == FindCard(messages, key)
    {
      var i := |messages|;
      assert messages[..i] == messages;
      while i > 0
        invariant 0 <= i <= |messages| && FindCard(messages, key) == FindCard(messages[..i], key)
      {
        assert messages[..i][..i - 1] == messages[..i - 1];
        i := i - 1;
        var variant := messages[i].variant;
        if variant.CardOf? && KeyOf(variant.card) == key {
          return Some(i);
        }
      }
      return None;
    }

    method FindFirstCardOf(key: CardKey) returns (index: Option<nat>)
      ensures index == FindFirstCard(messages, key)
    {
      hide FindFirstCard, KeyOf;
      assert messages[0..] == messages;
      for i := 0 to |messages|
        invariant FindFirstCard(messages, key) ==
                  var rest := FindFirstCard(messages[i..], key); if rest.Some? then Some(i + rest.value) else None
      {
        FirstCardFrom(messages, i, key);
        var variant := messages[i].variant;
        if variant.CardOf? && KeyOf(variant.card) == key {
          return Some(i);
        }
      }
      FirstCardFrom(messages, |messages|, key);
      return None;
    }

    // ----- rows -----

    method PushMessage(m: Message)
      modifies this
      ensures Now() == Push(old(Now()), m)
    {
      assert Stamp([m], currentTurn, nextId) == [m.(id := nextId, turn := currentTurn)];
      messages := messages + [m.(id := nextId, turn := currentTurn)];
      nextId := nextId + 1;
    }

    method RetainOthers(id: nat)
      modifies this`messages
      ensures messages == WithoutId(old(messages), id)
    {
      var kept: seq<Message> := [];
      for i := 0 to |messages|
        invariant messages == old(messages)
        invariant kept + WithoutId(messages[i..], id) == WithoutId(messages, id)
      {
        assert messages[i..][0] == messages[i] && messages[i..][1..] == messages[i + 1..];
        if messages[i].id != id {
          kept := kept + [messages[i]];
        }
      }
      messages := kept;
    }

    method FinishActiveStatus()
      modifies this
      ensures Now() == FinishStatus(old(Now()))
    {
      if activeStatusId.Some? {
        var id := activeStatusId.value;
        activeStatusId := None;
        RetainOthers(id);
      }
    }

    method ReplaceCardContent(key: CardKey, card: Card)
      modifies this
      ensures Now() == ReplaceCard(old(Now()), key, card)
    {
      var index := FindLastCard(key);
      if index.Some? {
        messages := messages[index.value := messages[index.value].(variant := CardOf(card))];
      }
    }

    method ReplaceFirstCardContent(key: CardKey, card: Card)
      modifies this
      ensures Now() == ReplaceFirstCard(old(Now()), key, card)
    {
      var index := FindFirstCardOf(key);
      if index.Some? {
        messages := messages[index.value := messages[index.value].(variant := CardOf(card))];
      }
    }

    /** `assistant_messages_from_content`, with the reasoning on the first message. */
    method FinishedMessages(text: string, reasoning: Option<string>) returns (ms: seq<Message>)
      ensures ms == Finished(text, reasoning, cfg)
    {
      var pieces := AssistantPieces(text, cfg.isChart);
      ms := [];
      for i := 0 to |pieces|
        invariant ms == seq(i, k requires 0 <= k < i => PieceMessage(pieces[k]))
      {
        ms := ms + [PieceMessage(pieces[i])];
      }
      if reasoning.Some? && ms != [] {
        ms := ms[0 := ms[0].(reasoning := reasoning.value)];
      }
    }

    method SpliceStamped(index: nat, ms: seq<Message>)
      requires index < |messages|
      modifies this
      ensures Now() == ReplaceBy(old(Now()), index, ms)
    {
      messages := messages[..index] + Stamp(ms, currentTurn, nextId) + messages[index + 1..];
      nextId := nextId + |ms|;
    }

    method CloseStreamingSegment()
      modifies this
      ensures Now() == CloseSegment(old(Now()), cfg)
    {
      var index := FindMessage(streamingId);
      streamingId := None;
      if index.Some? {
        var m := messages[index.value];
        var ms := FinishedMessages(m.content, Some(m.reasoning));
        SpliceStamped(index.value, ms);
      }
    }

    // ----- budget -----

    method RemoveToolInputOf(callId: string)
      modifies this
      ensures Now() == RemoveToolInput(old(Now()), callId)
    {
      toolInputs := toolInputs - {callId};
      var kept: seq<string> := [];
      for i := 0 to |toolInputOrder|
        invariant Now() == old(Now()).(toolInputs := toolInputs) && toolInputs == old(toolInputs) - {callId}
        invariant kept + WithoutKey(toolInputOrder[i..], callId) == WithoutKey(toolInputOrder, callId)
      {
        assert toolInputOrder[i..][0] == toolInputOrder[i] && toolInputOrder[i..][1..] == toolInputOrder[i + 1..];
        if toolInputOrder[i] != callId {
          kept := kept + [toolInputOrder[i]];
        }
      }
      toolInputOrder := kept;
    }

    method ForgetId(id: nat)
      modifies this`streamingId, this`activeStatusId, this`acpStatusId
      ensures streamingId == Forget(old(streamingId), id)
      ensures activeStatusId == Forget(old(activeStatusId), id)
      ensures acpStatusId == Forget(old(acpStatusId), id)
    {
      if streamingId == Some(id) {
        streamingId := None;
      }
      if activeStatusId == Some(id) {
        activeStatusId := None;
      }
      if acpStatusId == Some(id) {
        acpStatusId := None;
      }
    }

    method CutAt(index: nat)
      requires index < |messages|
      modifies this
      ensures Now() == CutMessage(old(Now()), index)
    {
      droppedMessages := droppedMessages + 1;
      var id := messages[index].id;
      messages := messages[..index] + messages[index + 1..];
      ForgetId(id);
    }

    method RemoveAt(index: nat)
      requires index < |messages|
      modifies this
      ensures Now() == RemoveMessage(old(Now()), index)
    {
      hide CutMessage, RemoveToolInput;
      var removed := messages[index];
      CutAt(index);
      match removed.variant {
        case CardOf(ToolCard(d)) => RemoveToolInputOf(d.callId);
        case CardOf(ConfirmCard(d)) => publicMcpIds := publicMcpIds - {d.callId};
        case _ =>
      }
    }

    method TruncateMessages()
      modifies this`messages
      ensures messages == TruncateAll(old(messages), cfg.maxFieldBytes)
    {
      hide TruncateFields;
      for i := 0 to |messages|
        invariant |messages| == |old(messages)|
        invariant forall k :: 0 <= k < i ==> messages[k] == TruncateFields(old(messages)[k], cfg.maxFieldBytes)
        invariant forall k :: i <= k < |messages| ==> messages[k] == old(messages)[k]
      {
        messages := messages[i := TruncateFields(messages[i], cfg.maxFieldBytes)];
      }
    }

    method FindVictim() returns (index: nat)
      requires messages != []
      ensures index == Victim(Now()) && index < |messages|
    {
      var i := 0;
      ghost var s := Now();
      while i < |messages| && Protected(messages[i], streamingId, activeStatusId, acpStatusId)
        invariant 0 <= i <= |messages|
        invariant FirstUnprotected(s, messages) == i + FirstUnprotected(s, messages[i..])
      {
        assert messages[i..][0] == messages[i] && messages[i..][1..] == messages[i + 1..];
        i := i + 1;
      }
      assert i < |messages| ==> messages[i..][0] == messages[i];
      return if i < |messages| then i else 0;
    }

    method EvictOne()
      requires messages != [] && OverBudget(messages, cfg)
      modifies this
      ensures Evict(Now(), cfg) == Evict(old(Now()), cfg)
      ensures |messages| < |old(messages)|
    {
      var index := FindVictim();
      RemoveAt(index);
    }

    method EvictOverBudget()
      modifies this
      ensures Now() == Evict(old(Now()), cfg)
    {
      while OverBudget(messages, cfg)
        invariant Evict(Now(), cfg) == Evict(old(Now()), cfg)
        decreases |messages|
      {
        assert messages != [] by {
          assert TextBytes([], cfg) == 0;
        }
        EvictOne();
      }
    }

    method EnforceTheBudget()
      modifies this
      ensures Now() == EnforceBudget(old(Now()), cfg)
    {
      if !budgetDeferred {
        TruncateMessages();
        EvictOverBudget();
      }
    }

    // ----- assistant text -----

    method PutMessage(index: nat, m: Message)
      requires index < |messages|
      modifies this`messages
      ensures Now() == PutOrOpen(old(Now()), Some(index), m)
    {
      messages := messages[index := m];
    }

    /** A new segment to stream into. */
    method OpenSegment(m: Message)
      modifies this
      ensures Now() == PutOrOpen(old(Now()), None, m)
    {
      var id := nextId;
      PushMessage(m);
      streamingId := Some(id);
    }

    method AppendTextDelta(delta: string)
      modifies this
      ensures Now() == AppendDelta(old(Now()), delta, cfg)
    {
      FinishActiveStatus();
      var index := FindMessage(streamingId);
      if index.Some? {
        var m := messages[index.value];
        PutMessage(index.value, m.(content := AppendBounded(m.content, delta, cfg.maxFieldBytes)));
      } else {
        OpenSegment(StreamingMessage(AppendBounded("", delta, cfg.maxFieldBytes), ""));
      }
    }

    method AppendReasoningDelta(delta: string)
      modifies this
      ensures Now() == AppendReasoning(old(Now()), delta, cfg)
    {
      FinishActiveStatus();
      var index := FindMessage(streamingId);
      if index.Some? && Trim(messages[index.value].content) != "" {
        streamingId := None;
        index := None;
      }
      if index.Some? {
        var m := messages[index.value];
        PutMessage(index.value, m.(reasoning := AppendBounded(m.reasoning, delta, cfg.maxFieldBytes)));
      } else {
        OpenSegment(StreamingMessage("", AppendBounded("", delta, cfg.maxFieldBytes)));
      }
    }

    method ExtendStamped(ms: seq<Message>)
      modifies this
      ensures messages == old(messages) + Stamp(ms, old(currentTurn), old(nextId))
      ensures Now() == old(Now()).(messages := messages, nextId := old(nextId) + |ms|)
    {
      messages := messages + Stamp(ms, currentTurn, nextId);
      nextId := nextId + |ms|;
    }

    method Finalize(text: string, reasoning: Option<string>)
      modifies this
      ensures Now() == FinalizeAssistant(old(Now()), text, reasoning, cfg)
    {
      FinishActiveStatus();
      var index := FindMessage(streamingId);
      streamingId := None;
      if index.Some? {
        var kept := if reasoning.Some? then reasoning.value else messages[index.value].reasoning;
        var ms := FinishedMessages(text, Some(kept));
        SpliceStamped(index.value, ms);
      } else {
        var ms := FinishedMessages(text, reasoning);
        ExtendStamped(ms);
      }
    }

    // ----- status and plan -----

    method UpsertStatusRow(title: string, isDone: bool)
      modifies this
      ensures Now() == UpsertStatus(old(Now()), title, isDone)
    {
      var index := FindMessage(activeStatusId);
      if index.Some? {
        var m := messages[index.value];
        messages := messages[index.value := m.(variant := Status(title, isDone), isStreaming := !isDone)];
        if isDone {
          activeStatusId := None;
        }
        return;
      }
      if !isDone {
        activeStatusId := Some(nextId);
      }
      PushMessage(StatusMessage(title, isDone));
    }

    method UpsertPlanRow(plan: PlanData)
      modifies this
      ensures Now() == UpsertPlan(old(Now()), plan)
    {
      latestPlan := Some(plan);
      var index := FindMessage(planMessageId);
      if index.Some? {
        messages := messages[index.value := messages[index.value].(variant := CardOf(PlanCard(plan)))];
        return;
      }
      planMessageId := Some(nextId);
      PushMessage(CardMessage(PlanCard(plan)));
    }

    // ----- tools -----

    method CacheInput(callId: string, arguments: Arguments)
      modifies this
      ensures Now() == CacheToolInput(old(Now()), callId, arguments)
    {
      RemoveToolInputOf(callId);
      if arguments.bytes > MAX_CACHED_TOOL_INPUT_BYTES {
        return;
      }
      toolInputs := toolInputs[callId := arguments];
      toolInputOrder := toolInputOrder + [callId];
      ghost var goal := TrimToolInputs(Now());
      while |toolInputOrder| > MAX_CACHED_TOOL_INPUTS
        invariant TrimToolInputs(Now()) == goal
        decreases |toolInputOrder|
      {
        var oldest := toolInputOrder[0];
        toolInputOrder := toolInputOrder[1..];
        toolInputs := toolInputs - {oldest};
      }
    }

    method PushToolCallCard(callId: string, toolName: string, action: ToolAction, arguments: Arguments)
      modifies this
      ensures Now() == PushToolCall(old(Now()), callId, toolName, action, arguments, cfg)
    {
      FinishActiveStatus();
      CloseStreamingSegment();
      CacheInput(callId, arguments);
      var d := ToolCardData(callId, toolName, action, None, None, arguments.summary, arguments.json,
                            true, None, "", "", [], None);
      PushMessage(CardMessage(ToolCard(BoundTool(d, CardLimit(cfg)))));
    }

    method ApplyToolObservation(obs: Observation)
      modifies this
      ensures Now() == ApplyObservation(old(Now()), obs, cfg)
    {
      var index := FindLastCard(ToolKey(obs.callId));
      if index.Some? {
        var d := Observed(messages[index.value].variant.card.tool, obs, cfg);
        ReplaceCardContent(ToolKey(obs.callId), ToolCard(d));
      } else {
        var d := ToolCardData(obs.callId, obs.toolName, obs.action, None, None, "", "", false, None, "", "", [], None);
        PushMessage(CardMessage(ToolCard(Observed(d, obs, cfg))));
      }
    }

    method FinishCall(callId: string, success: bool)
      modifies this
      ensures Now() == FinishToolCall(old(Now()), callId, success)
    {
      RemoveToolInputOf(callId);
      var index := FindLastCard(ToolKey(callId));
      if index.Some? {
        var d := messages[index.value].variant.card.tool.(running := false, success := Some(success));
        ReplaceCardContent(ToolKey(callId), ToolCard(d));
      }
    }

    method ConfirmInputDisplay(callId: Option<string>, arguments: Option<Arguments>) returns (input: (string, string))
      ensures input == ConfirmInput(Now(), callId, arguments)
    {
      if arguments.Some? && arguments.value.json != "" {
        return (arguments.value.summary, arguments.value.json);
      }
      if callId.Some? {
        var index := FindLastCard(ToolKey(callId.value));
        if index.Some? {
          var d := messages[index.value].variant.card.tool;
          return (d.inputSummary, d.inputJson);
        }
      }
      return ("", "");
    }

    method PushToolConfirmation(question: string, callId: Option<string>, toolName: Option<string>,
                                arguments: Option<Arguments>, items: seq<ConfirmItem>)
      modifies this
      ensures Now() == PushConfirm(old(Now()), question, callId, toolName, arguments, items, cfg)
    {
      FinishActiveStatus();
      var input := ConfirmInputDisplay(callId, arguments);
      var d := ConfirmData(if callId.Some? then callId.value else "",
                           if toolName.Some? then toolName.value else "unknown",
                           items, input.0, input.1, question, Pending);
      PushMessage(CardMessage(ConfirmCard(BoundConfirm(d, CardLimit(cfg)))));
      EnforceTheBudget();
    }

    method ResolveToolConfirm(callId: string, approved: bool)
      modifies this
      ensures Now() == ResolveConfirm(old(Now()), callId, approved, cfg)
    {
      var index := FindLastCard(ConfirmKey(callId));
      if index.None? {
        return;
      }
      var d := messages[index.value].variant.card.confirm.(status := if approved then Approved else Rejected);
      ReplaceCardContent(ConfirmKey(callId), ConfirmCard(d));
      EnforceTheBudget();
    }

    method PushPublicMcpApproval(d: ConfirmData)
      modifies this
      ensures Now() == PushMcpApproval(old(Now()), d, cfg)
    {
      var index := FindLastCard(ConfirmKey(d.callId));
      if index.Some? && messages[index.value].variant.card.confirm.status == Pending {
        return;
      }
      publicMcpIds := publicMcpIds + {d.callId};
      FinishActiveStatus();
      CloseStreamingSegment();
      PushMessage(CardMessage(ApprovalCard(d, cfg)));
      EnforceTheBudget();
    }

    method PushAcpPermission(d: PermissionData)
      modifies this
      ensures Now() == PushPermission(old(Now()), d, cfg)
    {
      var index := FindFirstCardOf(PermissionKey(d.requestId));
      if index.Some? && messages[index.value].variant.card.permission.status == Pending {
        return;
      }
      FinishActiveStatus();
      CloseStreamingSegment();
      PushMessage(CardMessage(RequestCard(d, cfg)));
      EnforceTheBudget();
    }

    method DecideAcpPermission(requestId: string, status: Decision, optionName: string)
      modifies this
      ensures Now() == DecidePermission(old(Now()), requestId, status, optionName, cfg)
    {
      var index := FindFirstCardOf(PermissionKey(requestId));
      if index.None? {
        return;
      }
      var d := messages[index.value].variant.card.permission.(status := status, selectedOptionName := optionName);
      ReplaceFirstCardContent(PermissionKey(requestId), PermissionCard(d));
      EnforceTheBudget();
    }

    method ResolveAcpPermission(requestId: string, option: PermissionOption)
      modifies this
      ensures Now() == ResolvePermission(old(Now()), requestId, option, cfg)
    {
      DecideAcpPermission(requestId, if "reject" <= option.kind then Rejected else Approved, option.name);
    }

    method CancelAcpPermission(requestId: string)
      modifies this
      ensures Now() == CancelPermission(old(Now()), requestId, cfg)
    {
      DecideAcpPermission(requestId, Cancelled, "");
    }

    // ----- subagents -----

    method FindActiveSubagent(id: string) returns (index: Option<nat>)
      ensures index == FindSubagent(activeSubagents, id)
    {
      for i := 0 to |activeSubagents|
        invariant FindSubagent(activeSubagents, id) ==
                  var rest := FindSubagent(activeSubagents[i..], id);
                  if rest.Some? then Some(i + rest.value) else None
      {
        assert activeSubagents[i..][0] == activeSubagents[i];
        assert activeSubagents[i..][1..] == activeSubagents[i + 1..];
        if activeSubagents[i].subagentId == id {
          return Some(i);
        }
      }
      return None;
    }

    method UpsertActiveSubagent(data: SubAgentData)
      modifies this
      ensures Now() == UpsertSubagent(old(Now()), data, cfg)
    {
      hide BoundSubagent, FirstFinished;
      var d := BoundSubagent(data, CardLimit(cfg));
      var index := FindActiveSubagent(d.subagentId);
      if index.Some? {
        activeSubagents := activeSubagents[index.value := d];
      } else {
        activeSubagents := activeSubagents + [d];
      }
      ghost var goal := TrimSubagents(activeSubagents);
      while |activeSubagents| > MAX_ACTIVE_SUBAGENTS
        invariant Now() == old(Now()).(activeSubagents := activeSubagents)
        invariant TrimSubagents(activeSubagents) == goal
        decreases |activeSubagents|
      {
        var finished := FirstFinished(activeSubagents);
        var k := if finished < |activeSubagents| then finished else 0;
        activeSubagents := activeSubagents[..k] + activeSubagents[k + 1..];
      }
    }

    method PushSubagentCard(id: string, name: string, task: string)
      modifies this
      ensures Now() == PushSubagent(old(Now()), id, name, task, cfg)
    {
      FinishActiveStatus();
      CloseStreamingSegment();
      var d := BoundSubagent(SubAgentData(id, name, task, true, None, ""), CardLimit(cfg));
      UpsertActiveSubagent(d);
      PushMessage(CardMessage(SubAgentCard(d)));
    }

    method FindSubagentData(id: string) returns (d: Option<SubAgentData>)
      ensures d == LookupSubagent(Now(), id)
    {
      var index := FindLastCard(SubAgentKey(id));
      if index.Some? {
        return Some(messages[index.value].variant.card.subagent);
      }
      var k := FindActiveSubagent(id);
      return if k.Some? then Some(activeSubagents[k.value]) else None;
    }

    method UpdateSubagentSummary(id: string, summary: string)
      modifies this
      ensures Now() == UpdateSubagent(old(Now()), id, summary, cfg)
    {
      var d := FindSubagentData(id);
      if d.Some? {
        var data := d.value.(summary := summary);
        UpsertActiveSubagent(data);
        ReplaceCardContent(SubAgentKey(id), SubAgentCard(data));
      }
    }

    method FinishSubagentCard(id: string, success: bool, summary: string)
      modifies this
      ensures Now() == FinishSubagent(old(Now()), id, success, summary, cfg)
    {
      var d := FindSubagentData(id);
      if d.Some? {
        var data := d.value.(running := false, success := Some(success));
        if summary != "" {
          data := data.(summary := summary);
        }
        UpsertActiveSubagent(data);
        ReplaceCardContent(SubAgentKey(id), SubAgentCard(data));
      }
    }

    // ----- ACP status -----

    method PutAcpStatus(title: string)
      modifies this
      ensures Now() == WithAcpStatus(old(Now()), title)
    {
      var index := FindMessage(acpStatusId);
      if index.Some? {
        var m := messages[index.value];
        messages := messages[index.value := m.(variant := Status(title, false), isStreaming := true)];
      } else {
        messages := messages + Stamp([StatusMessage(title, false)], None, nextId);
        acpStatusId := Some(nextId);
        nextId := nextId + 1;
      }
    }

    method SetAcpStatusRow(title: string)
      modifies this
      ensures Now() == SetAcpStatus(old(Now()), title, cfg)
    {
      PutAcpStatus(title);
      EnforceTheBudget();
    }

    method PutAcpError(text: string)
      modifies this
      ensures Now() == WithAcpError(old(Now()), text)
    {
      var index := FindMessage(acpStatusId);
      acpStatusId := None;
      if index.Some? {
        messages := messages[index.value := SystemMessage(text).(id := messages[index.value].id)];
      } else {
        messages := messages + Stamp([SystemMessage(text)], None, nextId);
        nextId := nextId + 1;
      }
    }

    method SetAcpErrorText(text: string)
      modifies this
      ensures Now() == SetAcpError(old(Now()), text, cfg)
    {
      FinishActiveStatus();
      PutAcpError(text);
      EnforceTheBudget();
    }

    method ApplyAcpFailure(event: Event, text: string) returns (applied: bool)
      modifies this
      ensures Now() == FailAcp(old(Now()), event, text, cfg)
      ensures applied <==> !Repeats(old(Now()), event, cfg)
    {
      applied := RecordOnce(event);
      if applied {
        streamingId := None;
        SetAcpErrorText(text);
      }
    }

    method ClearAcpStatusRow()
      modifies this
      ensures Now() == ClearAcpStatus(old(Now()))
    {
      if acpStatusId.Some? {
        var id := acpStatusId.value;
        acpStatusId := None;
        RetainOthers(id);
      }
    }

    // ----- events -----

    method RecordTerminalEvent(key: TerminalKey) returns (recorded: bool)
      modifies this
      ensures Now() == RecordTerminal(old(Now()), key)
      ensures recorded <==> key !in old(terminalEvents)
    {
      if key in terminalEvents {
        return false;
      }
      terminalEvents := terminalEvents + {key};
      terminalEventOrder := terminalEventOrder + [key];
      ghost var goal := TrimTerminals(Now());
      while |terminalEventOrder| > MAX_TERMINAL_EVENTS
        invariant TrimTerminals(Now()) == goal
        decreases |terminalEventOrder|
      {
        var oldest := terminalEventOrder[0];
        terminalEventOrder := terminalEventOrder[1..];
        terminalEvents := terminalEvents - {oldest};
      }
      return true;
    }

    /** Records the event if it is a terminal one; false when it was recorded before. */
    method RecordOnce(event: Event) returns (isNew: bool)
      modifies this
      ensures isNew <==> !Repeats(old(Now()), event, cfg)
      ensures Now() == if isNew then Recorded(old(Now()), event, cfg) else old(Now())
    {
      var key := TerminalKeyOf(event, cfg);
      if key.None? {
        return true;
      }
      isNew := RecordTerminalEvent(key.value);
    }

    method ReduceSpeech(event: Event)
      requires event.TurnStarted? || event.AssistantMessageDelta? || event.ReasoningDelta?
               || event.AssistantMessage? || event.UserMessage? || event.StatusChanged?
      modifies this
      ensures Now() == Reduce(old(Now()), event, cfg)
    {
      hide AppendDelta, AppendReasoning, FinalizeAssistant, EnforceBudget, UpsertStatus, Push;
      match event {
        case TurnStarted(_) => streamingId, activeStatusId := None, None;
        case AssistantMessageDelta(_, delta) => AppendTextDelta(delta);
        case ReasoningDelta(_, delta) => AppendReasoningDelta(delta);
        case AssistantMessage(_, text, reasoning) => Finalize(text, reasoning);
        case UserMessage(_, text) => PushUserText(cfg.userText(text));
        case StatusChanged(_, title, isDone) => UpsertStatusRow(title, isDone);
      }
    }

    method ReduceProgress(event: Event)
      requires event.PlanUpdated? || event.SubAgentStarted? || event.SubAgentUpdated? || event.SubAgentFinished?
      modifies this
      ensures Now() == Reduce(old(Now()), event, cfg)
    {
      hide UpsertStatus, UpsertPlan, PushSubagent, UpdateSubagent, FinishSubagent;
      match event {
        case PlanUpdated(_, plan) => UpsertPlanRow(plan);
        case SubAgentStarted(_, id, name, task) => PushSubagentCard(id, name, task);
        case SubAgentUpdated(_, id, summary) => UpdateSubagentSummary(id, summary);
        case SubAgentFinished(_, id, success, summary) => FinishSubagentCard(id, success, summary);
      }
    }

    method ReduceTool(event: Event)
      requires event.ToolCallStarted? || event.ObservationAdded? || event.ToolCallFinished?
               || event.NeedUserInput? || event.ToolApprovalResolved?
      modifies this
      ensures Now() == Reduce(old(Now()), event, cfg)
    {
      hide PushToolCall, ApplyObservation, FinishToolCall, PushConfirm, ResolveConfirm, AppendDelta, AppendReasoning,
           FinalizeAssistant, EnforceBudget, UpsertStatus, UpsertPlan, PushSubagent, UpdateSubagent, FinishSubagent,
           Push, CloseSegment, FinishStatus;
      match event {
        case ToolCallStarted(_, callId, name, action, arguments) => PushToolCallCard(callId, name, action, arguments);
        case ObservationAdded(_, obs) => ApplyToolObservation(obs);
        case ToolCallFinished(_, callId, success) => FinishCall(callId, success);
        case NeedUserInput(_, question, callId, name, arguments, items) =>
          PushToolConfirmation(question, callId, name, arguments, items);
        case ToolApprovalResolved(_, callId, approved) => ResolveToolConfirm(callId, approved);
      }
    }

    method ReduceTerminal(event: Event)
      requires event.TurnCompleted? || event.TurnCancelled? || event.TurnFailed?
      modifies this
      ensures Now() == Reduce(old(Now()), event, cfg)
    {
      hide FinishStatus, CloseSegment, Push, AppendDelta, AppendReasoning, FinalizeAssistant, EnforceBudget,
           UpsertStatus, UpsertPlan, PushSubagent, UpdateSubagent, FinishSubagent, PushToolCall, ApplyObservation,
           FinishToolCall, PushConfirm, ResolveConfirm;
      FinishActiveStatus();
      match event {
        case TurnFailed(_, reason) =>
          streamingId := None;
          PushMessage(SystemMessage(cfg.failedText(reason)));
        case TurnCancelled(_) =>
          CloseStreamingSegment();
          PushMessage(SystemMessage(cfg.cancelledText));
        case TurnCompleted(_) => CloseStreamingSegment();
      }
    }

    method EnterTheTurn(turnId: string)
      modifies this
      ensures Now() == EnterTurn(old(Now()), turnId)
    {
      if currentTurn != Some(turnId) {
        planMessageId := None;
      }
      currentTurn := Some(turnId);
    }

    method Apply(event: Event) returns (applied: bool)
      modifies this
      ensures Now() == TranscriptState.Apply(old(Now()), event, cfg)
      ensures applied <==> !Repeats(EnterTurn(old(Now()), event.turnId), event, cfg)
    {
      EnterTheTurn(event.turnId);
      applied := RecordOnce(event);
      if applied {
        Route(event);
        EnforceTheBudget();
      }
    }

    method Route(event: Event)
      modifies this
      ensures Now() == Reduce(old(Now()), event, cfg)
    {
      if event.TurnStarted? || event.AssistantMessageDelta? || event.ReasoningDelta?
         || event.AssistantMessage? || event.UserMessage? || event.StatusChanged? {
        ReduceSpeech(event);
      } else if event.PlanUpdated? || event.SubAgentStarted? || event.SubAgentUpdated? || event.SubAgentFinished? {
        ReduceProgress(event);
      } else if event.TurnCompleted? || event.TurnCancelled? || event.TurnFailed? {
        ReduceTerminal(event);
      } else {
        ReduceTool(event);
      }
    }

    // ----- the other entry points -----

    method PushWithinBudget(m: Message)
      modifies this
      ensures Now() == EnforceBudget(Push(old(Now()), m), cfg)
    {
      PushMessage(m);
      EnforceTheBudget();
    }

    method PushSystemText(text: string)
      modifies this
      ensures Now() == Act(old(Now()), PushSystem(text), cfg)
    {
      PushWithinBudget(SystemMessage(text));
    }

    method PushUserText(text: string)
      modifies this
      ensures Now() == Act(old(Now()), PushUser(text), cfg)
    {
      PushWithinBudget(NewMessage(UserRole, text, Text, false));
    }

    method PushCompactionRow(text: string, originalItems: nat)
      modifies this
      ensures Now() == Act(old(Now()), PushCompaction(text, originalItems), cfg)
    {
      PushWithinBudget(CardMessage(CompactionCard(originalItems, text)));
    }

    method SetBudgetDeferred(deferred: bool)
      modifies this
      ensures Now() == Act(old(Now()), Defer(deferred), cfg)
    {
      budgetDeferred := deferred;
    }

    method FlushDeferredBudget()
      modifies this
      ensures Now() == Act(old(Now()), Flush, cfg)
    {
      hide EnforceBudget, TranscriptState.Apply, PushMcpApproval, PushPermission, DecidePermission,
           SetAcpStatus, SetAcpError, FailAcp;
      if !budgetDeferred {
        return;
      }
      budgetDeferred := false;
      EnforceTheBudget();
    }
  }
}
