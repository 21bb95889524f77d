/**
 The bounded memories of the transcript: which terminal events were seen, and the
 raw inputs of recent tool calls. Each is a set or map next to a queue of its keys.
 */
module TranscriptMemory {
  import opened Basics
  import opened FencedBlocks
  import opened BoundedText
  import opened TranscriptState
  import opened TranscriptInvariant

  ghost predicate NoRepeat<T>(order: seq<T>) {
    forall i, j :: 0 <= i < j < |order| ==> order[i] != order[j]
  }

  /** The queue lists the keys, each once. */
  ghost predicate Lists<T(!new)>(order: seq<T>, keys: set<T>) {
    NoRepeat(order) && forall k :: k in keys <==> k in order
  }

  lemma ListsTail<T(!new)>(order: seq<T>, keys: set<T>)
    requires order != [] && Lists(order, keys)
    ensures Lists(order[1..], keys - {order[0]})
  {
  }

  lemma ListsSnoc<T(!new)>(order: seq<T>, keys: set<T>, k: T)
    requires Lists(order, keys) && k !in keys
    ensures Lists(order + [k], keys + {k})
  {
  }

  ghost predicate MemoryOk(s: State) {
    && Lists(s.terminalOrder, s.terminalEvents) && |s.terminalOrder| <= MAX_TERMINAL_EVENTS
    && Lists(s.toolInputOrder, s.toolInputs.Keys) && |s.toolInputOrder| <= MAX_CACHED_TOOL_INPUTS
    && (forall k :: k in s.toolInputs ==> s.toolInputs[k].bytes <= MAX_CACHED_TOOL_INPUT_BYTES)
  }

  // ----- terminal events -----

  lemma {:induction false} TrimTerminalsLists(s: State)
    requires Lists(s.terminalOrder, s.terminalEvents)
    ensures var t := TrimTerminals(s);
            && t.terminalOrder == Last(s.terminalOrder, MAX_TERMINAL_EVENTS)
            && Lists(t.terminalOrder, t.terminalEvents)
            && t.toolInputs == s.toolInputs && t.toolInputOrder == s.toolInputOrder
    decreases |s.terminalOrder|
  {
    if |s.terminalOrder| > MAX_TERMINAL_EVENTS {
      ListsTail(s.terminalOrder, s.terminalEvents);
      var rest := s.terminalOrder[1..];
      TrimTerminalsLists(s.(terminalEvents := s.terminalEvents - {s.terminalOrder[0]}, terminalOrder := rest));
      assert Last(rest, MAX_TERMINAL_EVENTS) == Last(s.terminalOrder, MAX_TERMINAL_EVENTS);
    }
  }

  lemma RecordTerminalLists(s: State, key: TerminalKey)
    requires Lists(s.terminalOrder, s.terminalEvents)
    ensures var t := RecordTerminal(s, key);
            && Lists(t.terminalOrder, t.terminalEvents)
            && t.terminalOrder == (if key in s.terminalEvents then s.terminalOrder
                                   else Last(s.terminalOrder + [key], MAX_TERMINAL_EVENTS))
            && t.toolInputs == s.toolInputs && t.toolInputOrder == s.toolInputOrder
  {
    if key !in s.terminalEvents {
      ListsSnoc(s.terminalOrder, s.terminalEvents, key);
      TrimTerminalsLists(s.(terminalEvents := s.terminalEvents + {key}, terminalOrder := s.terminalOrder + [key]));
    }
  }

  function RecordAll(keys: seq<TerminalKey>): State {
    if keys == [] then EMPTY else RecordTerminal(RecordAll(keys[..|keys| - 1]), keys[|keys| - 1])
  }

  /** The keys that were new when they came. */
  function Accepted(keys: seq<TerminalKey>): seq<TerminalKey> {
    if keys == [] then []
    else
      var front, key := keys[..|keys| - 1], keys[|keys| - 1];
      Accepted(front) + if key in RecordAll(front).terminalEvents then [] else [key]
  }

  /** Over every sequence of keys, a key is refused exactly when it is among the last 1024 accepted ones. */
  lemma {:induction false} RefusedIffRecent(keys: seq<TerminalKey>)
    ensures var s := RecordAll(keys);
            && s.terminalOrder == Last(Accepted(keys), MAX_TERMINAL_EVENTS)
            && Lists(s.terminalOrder, s.terminalEvents)
            && forall key :: key in s.terminalEvents <==> key in Last(Accepted(keys), MAX_TERMINAL_EVENTS)
  {
    if keys != [] {
      var front, key := keys[..|keys| - 1], keys[|keys| - 1];
      RefusedIffRecent(front);
      RecordTerminalLists(RecordAll(front), key);
      var a := Accepted(front);
      assert Last(Last(a, MAX_TERMINAL_EVENTS) + [key], MAX_TERMINAL_EVENTS) == Last(a + [key], MAX_TERMINAL_EVENTS);
      assert a + [] == a;
    }
  }

  // ----- cached tool inputs -----

  lemma {:induction false} WithoutKeyKeeps(order: seq<string>, key: string)
    requires NoRepeat(order)
    ensures NoRepeat(WithoutKey(order, key)) && |WithoutKey(order, key)| <= |order|
    ensures forall k :: k in WithoutKey(order, key) <==> k in order && k != key
  {
    if order != [] {
      WithoutKeyKeeps(order[1..], key);
      assert order == [order[0]] + order[1..];
      assert order[0] !in WithoutKey(order[1..], key);
    }
  }

  lemma RemoveInputOk(s: State, callId: string)
    requires MemoryOk(s)
    ensures MemoryOk(RemoveToolInput(s, callId))
    ensures callId !in RemoveToolInput(s, callId).toolInputs
  {
    WithoutKeyKeeps(s.toolInputOrder, callId);
  }

  lemma TrimInputsOk(s: State)
    requires Lists(s.toolInputOrder, s.toolInputs.Keys) && |s.toolInputOrder| <= MAX_CACHED_TOOL_INPUTS + 1
    requires Lists(s.terminalOrder, s.terminalEvents) && |s.terminalOrder| <= MAX_TERMINAL_EVENTS
    requires forall k :: k in s.toolInputs ==> s.toolInputs[k].bytes <= MAX_CACHED_TOOL_INPUT_BYTES
    ensures MemoryOk(TrimToolInputs(s))
    ensures TrimToolInputs(s).toolInputOrder == Last(s.toolInputOrder, MAX_CACHED_TOOL_INPUTS)
    ensures forall k :: k in TrimToolInputs(s).toolInputs ==> TrimToolInputs(s).toolInputs[k] == s.toolInputs[k]
  {
    if |s.toolInputOrder| > MAX_CACHED_TOOL_INPUTS {
      ListsTail(s.toolInputOrder, s.toolInputs.Keys);
      var first := s.toolInputOrder[0];
      assert (s.toolInputs - {first}).Keys == s.toolInputs.Keys - {first};
    }
  }

  /** The latest input is cached unless it is oversized; the oldest gives way to it. */
  lemma CacheInputOk(s: State, callId: string, arguments: Arguments)
    requires MemoryOk(s)
    ensures var t := CacheToolInput(s, callId, arguments);
            && MemoryOk(t)
            && (callId in t.toolInputs <==> arguments.bytes <= MAX_CACHED_TOOL_INPUT_BYTES)
            && (callId in t.toolInputs ==> t.toolInputs[callId] == arguments)
            && t.toolInputOrder ==
               (if arguments.bytes > MAX_CACHED_TOOL_INPUT_BYTES then WithoutKey(s.toolInputOrder, callId)
                else Last(WithoutKey(s.toolInputOrder, callId) + [callId], MAX_CACHED_TOOL_INPUTS))
  {
    RemoveInputOk(s, callId);
    var s1 := RemoveToolInput(s, callId);
    if arguments.bytes <= MAX_CACHED_TOOL_INPUT_BYTES {
      var s2 := s1.(toolInputs := s1.toolInputs[callId := arguments], toolInputOrder := s1.toolInputOrder + [callId]);
      ListsSnoc(s1.toolInputOrder, s1.toolInputs.Keys, callId);
      assert s2.toolInputs.Keys == s1.toolInputs.Keys + {callId};
      TrimInputsOk(s2);
      var order := TrimToolInputs(s2).toolInputOrder;
      assert order[|order| - 1] == callId;
    }
  }

  // ----- every operation keeps the memories -----

  /** Nothing of the memories changed. */
  ghost predicate SameMemory(s: State, t: State) {
    && t.terminalEvents == s.terminalEvents && t.terminalOrder == s.terminalOrder
    && t.toolInputs == s.toolInputs && t.toolInputOrder == s.toolInputOrder
  }

  lemma {:induction false} EvictMemory(s: State, cfg: Config)
    requires MemoryOk(s)
    ensures MemoryOk(Evict(s, cfg))
    decreases |s.messages|
  {
    if s.messages != [] && OverBudget(s.messages, cfg) {
      var m := s.messages[Victim(s)];
      if m.variant.CardOf? && m.variant.card.ToolCard? {
        RemoveInputOk(s, m.variant.card.tool.callId);
      }
      EvictMemory(RemoveMessage(s, Victim(s)), cfg);
    }
  }

  lemma EnforceMemory(s: State, cfg: Config)
    requires MemoryOk(s)
    ensures MemoryOk(EnforceBudget(s, cfg))
  {
    if !s.deferred {
      EvictMemory(s.(messages := TruncateAll(s.messages, cfg.maxFieldBytes)), cfg);
    }
  }

  lemma RecordedMemory(s: State, e: Event, cfg: Config)
    requires MemoryOk(s)
    ensures MemoryOk(Recorded(s, e, cfg))
  {
    var key := TerminalKeyOf(e, cfg);
    if key.Some? {
      RecordTerminalLists(s, key.value);
    }
  }

  lemma PushedMemory(s: State, m: Message, cfg: Config)
    requires MemoryOk(s)
    ensures MemoryOk(EnforceBudget(Push(s, m), cfg))
  {
    EnforceMemory(Push(s, m), cfg);
  }

  lemma ConfirmMemory(s: State, question: string, callId: Option<string>, name: Option<string>,
                      arguments: Option<Arguments>, items: seq<ConfirmItem>, cfg: Config)
    requires MemoryOk(s)
    ensures MemoryOk(PushConfirm(s, question, callId, name, arguments, items, cfg))
  {
    var s1 := FinishStatus(s);
    var input := ConfirmInput(s1, callId, arguments);
    var d := ConfirmData(if callId.Some? then callId.value else "", if name.Some? then name.value else "unknown",
                         items, input.0, input.1, question, Pending);
    PushedMemory(s1, CardMessage(ConfirmCard(BoundConfirm(d, CardLimit(cfg)))), cfg);
  }

  lemma ResolveMemory(s: State, callId: string, approved: bool, cfg: Config)
    requires MemoryOk(s)
    ensures MemoryOk(ResolveConfirm(s, callId, approved, cfg))
  {
    var i := FindCard(s.messages, ConfirmKey(callId));
    if i.Some? {
      var d := s.messages[i.value].variant.card.confirm.(status := if approved then Approved else Rejected);
      EnforceMemory(ReplaceCard(s, ConfirmKey(callId), ConfirmCard(d)), cfg);
    }
  }

  lemma ToolCallMemory(s: State, callId: string, name: string, action: ToolAction, arguments: Arguments, cfg: Config)
    requires MemoryOk(s)
    ensures MemoryOk(PushToolCall(s, callId, name, action, arguments, cfg))
  {
    CacheInputOk(CloseSegment(FinishStatus(s), cfg), callId, arguments);
  }

  lemma CloseSameMemory(s: State, cfg: Config)
    ensures SameMemory(s, FinishStatus(s)) && SameMemory(s, CloseSegment(s, cfg))
    ensures SameMemory(s, CloseSegment(FinishStatus(s), cfg))
  {
  }

  lemma PutSameMemory(s: State, i: Option<nat>, m: Message)
    requires i.Some? ==> i.value < |s.messages|
    ensures SameMemory(s, PutOrOpen(s, i, m))
  {
  }

  lemma DeltaSameMemory(s: State, delta: string, cfg: Config)
    ensures SameMemory(s, AppendDelta(s, delta, cfg))
  {
    var s1 := FinishStatus(s);
    var i := PositionOf(s1.messages, s1.streamingId);
    PutSameMemory(s1, i, WithText(s1.messages, i, delta, cfg));
  }

  lemma ReasoningSameMemory(s: State, delta: string, cfg: Config)
    ensures SameMemory(s, AppendReasoning(s, delta, cfg))
  {
    var s0 := FinishStatus(s);
    var s1 := if SegmentHasText(s0) then s0.(streamingId := None) else s0;
    var i := PositionOf(s1.messages, s1.streamingId);
    PutSameMemory(s1, i, WithReasoning(s1.messages, i, delta, cfg));
  }

  lemma FinalSameMemory(s: State, text: string, reasoning: Option<string>, cfg: Config)
    ensures SameMemory(s, FinalizeAssistant(s, text, reasoning, cfg))
  {
  }

  lemma SpeechSameMemory(s: State, e: Event, cfg: Config)
    requires e.TurnStarted? || e.AssistantMessageDelta? || e.ReasoningDelta? || e.AssistantMessage?
             || e.TurnCompleted? || e.TurnCancelled? || e.TurnFailed?
    ensures SameMemory(s, Reduce(s, e, cfg))
  {
    hide AppendDelta, AppendReasoning, FinalizeAssistant;
    CloseSameMemory(s, cfg);
    match e {
      case AssistantMessageDelta(_, delta) => DeltaSameMemory(s, delta, cfg);
      case ReasoningDelta(_, delta) => ReasoningSameMemory(s, delta, cfg);
      case AssistantMessage(_, text, reasoning) => FinalSameMemory(s, text, reasoning, cfg);
      case _ =>
    }
  }

  lemma ReplaceSameMemory(s: State, key: CardKey, card: Card)
    ensures SameMemory(s, ReplaceCard(s, key, card))
  {
  }

  lemma RowsSameMemory(s: State, e: Event, cfg: Config)
    requires e.StatusChanged? || e.PlanUpdated? || e.ObservationAdded?
    ensures SameMemory(s, Reduce(s, e, cfg))
  {
    if e.ObservationAdded? {
      var i := FindCard(s.messages, ToolKey(e.observation.callId));
      if i.Some? {
        ReplaceSameMemory(s, ToolKey(e.observation.callId),
                          ToolCard(Observed(s.messages[i.value].variant.card.tool, e.observation, cfg)));
      }
    }
  }

  lemma StartedSameMemory(s: State, id: string, name: string, task: string, cfg: Config)
    ensures SameMemory(s, PushSubagent(s, id, name, task, cfg))
  {
    hide CloseSegment, FinishStatus, BoundSubagent, TrimSubagents, FindSubagent;
    CloseSameMemory(s, cfg);
  }

  lemma ChangedSameMemory(s: State, next: SubAgentData, key: CardKey, cfg: Config)
    ensures SameMemory(s, ReplaceCard(UpsertSubagent(s, next, cfg), key, SubAgentCard(next)))
  {
    hide ReplaceCard, BoundSubagent, TrimSubagents, FindSubagent;
    ReplaceSameMemory(UpsertSubagent(s, next, cfg), key, SubAgentCard(next));
  }

  lemma UpdatedSameMemory(s: State, id: string, summary: string, cfg: Config)
    ensures SameMemory(s, UpdateSubagent(s, id, summary, cfg))
  {
    hide ReplaceCard, UpsertSubagent, LookupSubagent;
    var d := LookupSubagent(s, id);
    if d.Some? {
      ChangedSameMemory(s, d.value.(summary := summary), SubAgentKey(id), cfg);
    }
  }

  lemma EndedSameMemory(s: State, id: string, success: bool, summary: string, cfg: Config)
    ensures SameMemory(s, FinishSubagent(s, id, success, summary, cfg))
  {
    hide ReplaceCard, UpsertSubagent, LookupSubagent;
    var d := LookupSubagent(s, id);
    if d.Some? {
      ChangedSameMemory(s, d.value.(running := false, success := Some(success),
                                    summary := if summary != "" then summary else d.value.summary),
                        SubAgentKey(id), cfg);
    }
  }

  lemma SubagentsSameMemory(s: State, e: Event, cfg: Config)
    requires e.SubAgentStarted? || e.SubAgentUpdated? || e.SubAgentFinished?
    ensures SameMemory(s, Reduce(s, e, cfg))
  {
    hide SameMemory, PushSubagent, UpdateSubagent, FinishSubagent;
    match e {
      case SubAgentStarted(_, id, name, task) => StartedSameMemory(s, id, name, task, cfg);
      case SubAgentUpdated(_, id, summary) => UpdatedSameMemory(s, id, summary, cfg);
      case SubAgentFinished(_, id, success, summary) => EndedSameMemory(s, id, success, summary, cfg);
    }
  }

  lemma SameMemoryKeeps(s: State, t: State)
    requires MemoryOk(s) && SameMemory(s, t)
    ensures MemoryOk(t)
  {
    hide Lists;
  }

  lemma RememberingKeeps(s: State, e: Event, cfg: Config)
    requires MemoryOk(s)
    requires e.UserMessage? || e.ToolCallStarted? || e.ToolCallFinished? || e.NeedUserInput? || e.ToolApprovalResolved?
    ensures MemoryOk(Reduce(s, e, cfg))
  {
    hide MemoryOk, EnforceBudget, PushToolCall, FinishToolCall, PushConfirm, ResolveConfirm, Push;
    match e {
      case UserMessage(_, text) => PushedMemory(s, NewMessage(UserRole, cfg.userText(text), Text, false), cfg);
      case ToolCallStarted(_, callId, name, action, arguments) =>
        ToolCallMemory(s, callId, name, action, arguments, cfg);
      case ToolCallFinished(_, callId, success) => FinishCallMemory(s, callId, success);
      case NeedUserInput(_, question, callId, name, arguments, items) =>
        ConfirmMemory(s, question, callId, name, arguments, items, cfg);
      case ToolApprovalResolved(_, callId, approved) => ResolveMemory(s, callId, approved, cfg);
    }
  }

  lemma FinishCallMemory(s: State, callId: string, success: bool)
    requires MemoryOk(s)
    ensures MemoryOk(FinishToolCall(s, callId, success))
  {
    hide MemoryOk, RemoveToolInput, ReplaceCard;
    RemoveInputOk(s, callId);
    var s1 := RemoveToolInput(s, callId);
    var i := FindCard(s1.messages, ToolKey(callId));
    if i.Some? {
      var card := ToolCard(s1.messages[i.value].variant.card.tool.(running := false, success := Some(success)));
      ReplaceSameMemory(s1, ToolKey(callId), card);
      SameMemoryKeeps(s1, ReplaceCard(s1, ToolKey(callId), card));
    }
  }

  lemma ReduceMemory(s: State, e: Event, cfg: Config)
    requires MemoryOk(s)
    ensures MemoryOk(Reduce(s, e, cfg))
  {
    hide MemoryOk, Reduce, SameMemory;
    if e.UserMessage? || e.ToolCallStarted? || e.ToolCallFinished? || e.NeedUserInput? || e.ToolApprovalResolved? {
      RememberingKeeps(s, e, cfg);
    } else {
      if e.StatusChanged? || e.PlanUpdated? || e.ObservationAdded? {
        RowsSameMemory(s, e, cfg);
      } else if e.SubAgentStarted? || e.SubAgentUpdated? || e.SubAgentFinished? {
        SubagentsSameMemory(s, e, cfg);
      } else {
        SpeechSameMemory(s, e, cfg);
      }
      SameMemoryKeeps(s, Reduce(s, e, cfg));
    }
  }

  lemma ApplyMemory(s: State, e: Event, cfg: Config)
    requires MemoryOk(s)
    ensures MemoryOk(Apply(s, e, cfg))
  {
    var s1 := EnterTurn(s, e.turnId);
    if !Repeats(s1, e, cfg) {
      RecordedMemory(s1, e, cfg);
      ReduceMemory(Recorded(s1, e, cfg), e, cfg);
      EnforceMemory(Reduce(Recorded(s1, e, cfg), e, cfg), cfg);
    }
  }

  lemma McpMemory(s: State, d: ConfirmData, cfg: Config)
    requires MemoryOk(s)
    ensures MemoryOk(PushMcpApproval(s, d, cfg))
  {
    if !HasPendingConfirm(s, d.callId) {
      var s0 := s.(publicMcpIds := s.publicMcpIds + {d.callId});
      CloseSameMemory(s0, cfg);
      PushedMemory(CloseSegment(FinishStatus(s0), cfg), CardMessage(ApprovalCard(d, cfg)), cfg);
    }
  }

  lemma AskMemory(s: State, d: PermissionData, cfg: Config)
    requires MemoryOk(s)
    ensures MemoryOk(PushPermission(s, d, cfg))
  {
    hide EnforceBudget, CloseSegment, FinishStatus, RequestCard;
    if !HasPendingPermission(s, d.requestId) {
      CloseSameMemory(s, cfg);
      PushedMemory(CloseSegment(FinishStatus(s), cfg), CardMessage(RequestCard(d, cfg)), cfg);
    }
  }

  lemma DecideMemory(s: State, requestId: string, status: Decision, optionName: string, cfg: Config)
    requires MemoryOk(s)
    ensures MemoryOk(DecidePermission(s, requestId, status, optionName, cfg))
  {
    hide EnforceBudget;
    var i := FindFirstCard(s.messages, PermissionKey(requestId));
    if i.Some? {
      var d := s.messages[i.value].variant.card.permission.(status := status, selectedOptionName := optionName);
      EnforceMemory(ReplaceFirstCard(s, PermissionKey(requestId), PermissionCard(d)), cfg);
    }
  }

  lemma FailAcpMemory(s: State, e: Event, text: string, cfg: Config)
    requires MemoryOk(s)
    ensures MemoryOk(FailAcp(s, e, text, cfg))
  {
    if !Repeats(s, e, cfg) {
      RecordedMemory(s, e, cfg);
      AcpErrorMemory(Recorded(s, e, cfg).(streamingId := None), text, cfg);
    }
  }

  lemma AcpErrorMemory(s: State, text: string, cfg: Config)
    requires MemoryOk(s)
    ensures MemoryOk(SetAcpError(s, text, cfg))
  {
    EnforceMemory(WithAcpError(FinishStatus(s), text), cfg);
  }

  lemma ActMemory(s: State, a: Action, cfg: Config)
    requires MemoryOk(s)
    ensures MemoryOk(Act(s, a, cfg))
  {
    hide Apply, EnforceBudget, PushMcpApproval, PushPermission, DecidePermission, SetAcpError, FailAcp;
    match a {
      case ApplyEvent(e) => ApplyMemory(s, e, cfg);
      case PushSystem(text) => PushedMemory(s, SystemMessage(text), cfg);
      case PushUser(text) => PushedMemory(s, NewMessage(UserRole, text, Text, false), cfg);
      case PushCompaction(text, n) => PushedMemory(s, CardMessage(CompactionCard(n, text)), cfg);
      case ApproveMcp(d) => McpMemory(s, d, cfg);
      case AskPermission(d) => AskMemory(s, d, cfg);
      case AnswerPermission(id, option) =>
        DecideMemory(s, id, if "reject" <= option.kind then Rejected else Approved, option.name, cfg);
      case WithdrawPermission(id) => DecideMemory(s, id, Cancelled, "", cfg);
      case AcpStatus(title) => EnforceMemory(WithAcpStatus(s, title), cfg);
      case AcpError(text) => AcpErrorMemory(s, text, cfg);
      case AcpFailure(e, text) => FailAcpMemory(s, e, text, cfg);
      case Flush =>
        if s.deferred {
          EnforceMemory(s.(deferred := false), cfg);
        }
      case _ =>
    }
  }

  /**
   After every run: the recorded terminal events are exactly the queue, which has no
   repetition and at most 1024 entries; the cached inputs are exactly their queue,
   without repetition, at most 128, none oversized.
   */
  lemma {:induction false} MemoriesStayBounded(actions: seq<Action>, cfg: Config)
    ensures MemoryOk(Run(actions, cfg))
  {
    if actions != [] {
      MemoriesStayBounded(actions[..|actions| - 1], cfg);
      ActMemory(Run(actions[..|actions| - 1], cfg), actions[|actions| - 1], cfg);
    }
  }

  // ----- a turn ends once -----

  ghost predicate SameTerminals(s: State, t: State) {
    t.terminalEvents == s.terminalEvents
  }

  lemma {:induction false} EvictTerminals(s: State, cfg: Config)
    ensures SameTerminals(s, Evict(s, cfg))
    decreases |s.messages|
  {
    hide OverBudget, Victim;
    if s.messages != [] && OverBudget(s.messages, cfg) {
      EvictTerminals(RemoveMessage(s, Victim(s)), cfg);
    }
  }

  lemma EnforceTerminals(s: State, cfg: Config)
    ensures SameTerminals(s, EnforceBudget(s, cfg))
  {
    EvictTerminals(s.(messages := TruncateAll(s.messages, cfg.maxFieldBytes)), cfg);
  }

  lemma ConfirmTerminals(s: State, e: Event, cfg: Config)
    requires e.NeedUserInput?
    ensures SameTerminals(s, Reduce(s, e, cfg))
  {
    hide EnforceBudget, BoundConfirm, ConfirmInput, WithoutId;
    var s1 := FinishStatus(s);
    var input := ConfirmInput(s1, e.pendingCallId, e.requestedArguments);
    var d := ConfirmData(if e.pendingCallId.Some? then e.pendingCallId.value else "",
                         if e.requestedTool.Some? then e.requestedTool.value else "unknown",
                         e.pendingCalls, input.0, input.1, e.question, Pending);
    EnforceTerminals(Push(s1, CardMessage(ConfirmCard(BoundConfirm(d, CardLimit(cfg))))), cfg);
  }

  lemma EndTerminals(s: State, e: Event, cfg: Config)
    requires TerminalKeyOf(e, cfg).Some?
    ensures SameTerminals(s, Reduce(s, e, cfg))
  {
    hide CloseSegment, FinishStatus, PushConfirm;
    if e.NeedUserInput? {
      ConfirmTerminals(s, e, cfg);
    } else {
      CloseSameMemory(s, cfg);
    }
  }

  lemma ErrorTerminals(s: State, text: string, cfg: Config)
    ensures SameTerminals(s, SetAcpError(s, text, cfg))
  {
    hide EnforceBudget, WithoutId;
    EnforceTerminals(WithAcpError(FinishStatus(s), text), cfg);
  }

  lemma NowRecorded(s: State, e: Event, cfg: Config)
    requires MemoryOk(s) && TerminalKeyOf(e, cfg).Some?
    ensures TerminalKeyOf(e, cfg).value in Recorded(s, e, cfg).terminalEvents
  {
    var key := TerminalKeyOf(e, cfg).value;
    RecordTerminalLists(s, key);
    if key !in s.terminalEvents {
      var order := Last(s.terminalOrder + [key], MAX_TERMINAL_EVENTS);
      assert order[|order| - 1] == key;
    }
  }

  /** After the event, or after its connection failed, the event is a repetition. */
  lemma EndIsRecorded(s: State, e: Event, text: string, cfg: Config)
    requires MemoryOk(s) && TerminalKeyOf(e, cfg).Some?
    ensures Repeats(Apply(s, e, cfg), e, cfg) && Repeats(FailAcp(s, e, text, cfg), e, cfg)
  {
    hide Reduce, EnforceBudget, SetAcpError, Recorded, MemoryOk;
    var s1 := EnterTurn(s, e.turnId);
    assert MemoryOk(s1) by { EnteredMemory(s, e.turnId); }
    NowRecorded(s1, e, cfg);
    NowRecorded(s, e, cfg);
    EndTerminals(Recorded(s1, e, cfg), e, cfg);
    EnforceTerminals(Reduce(Recorded(s1, e, cfg), e, cfg), cfg);
    ErrorTerminals(Recorded(s, e, cfg).(streamingId := None), text, cfg);
  }

  lemma EnteredMemory(s: State, turn: string)
    requires MemoryOk(s)
    ensures MemoryOk(EnterTurn(s, turn))
  {
  }

  lemma {:induction false} EvictTurn(s: State, cfg: Config)
    ensures Evict(s, cfg).currentTurn == s.currentTurn
    decreases |s.messages|
  {
    hide OverBudget, Victim;
    if s.messages != [] && OverBudget(s.messages, cfg) {
      EvictTurn(RemoveMessage(s, Victim(s)), cfg);
    }
  }

  lemma EnforceTurn(s: State, cfg: Config)
    ensures EnforceBudget(s, cfg).currentTurn == s.currentTurn
  {
    EvictTurn(s.(messages := TruncateAll(s.messages, cfg.maxFieldBytes)), cfg);
  }

  lemma {:induction false} TrimTerminalsTurn(s: State)
    ensures TrimTerminals(s).currentTurn == s.currentTurn
    decreases |s.terminalOrder|
  {
    if |s.terminalOrder| > MAX_TERMINAL_EVENTS {
      TrimTerminalsTurn(s.(terminalEvents := s.terminalEvents - {s.terminalOrder[0]},
                           terminalOrder := s.terminalOrder[1..]));
    }
  }

  lemma ConfirmTurn(s: State, e: Event, cfg: Config)
    requires e.NeedUserInput?
    ensures Reduce(s, e, cfg).currentTurn == s.currentTurn
  {
    hide EnforceBudget, BoundConfirm, ConfirmInput, WithoutId;
    var s1 := FinishStatus(s);
    var input := ConfirmInput(s1, e.pendingCallId, e.requestedArguments);
    var d := ConfirmData(if e.pendingCallId.Some? then e.pendingCallId.value else "",
                         if e.requestedTool.Some? then e.requestedTool.value else "unknown",
                         e.pendingCalls, input.0, input.1, e.question, Pending);
    EnforceTurn(Push(s1, CardMessage(ConfirmCard(BoundConfirm(d, CardLimit(cfg))))), cfg);
  }

  lemma EndTurn(s: State, e: Event, cfg: Config)
    requires TerminalKeyOf(e, cfg).Some?
    ensures Reduce(s, e, cfg).currentTurn == s.currentTurn
  {
    hide PushConfirm, Finished, WithoutId;
    if e.NeedUserInput? {
      ConfirmTurn(s, e, cfg);
    }
  }

  lemma AppliedTurn(s: State, e: Event, cfg: Config)
    requires TerminalKeyOf(e, cfg).Some?
    ensures Apply(s, e, cfg).currentTurn == Some(e.turnId)
  {
    hide Reduce, EnforceBudget;
    var s1 := EnterTurn(s, e.turnId);
    var key := TerminalKeyOf(e, cfg).value;
    if key !in s1.terminalEvents {
      TrimTerminalsTurn(s1.(terminalEvents := s1.terminalEvents + {key}, terminalOrder := s1.terminalOrder + [key]));
      EndTurn(Recorded(s1, e, cfg), e, cfg);
      EnforceTurn(Reduce(Recorded(s1, e, cfg), e, cfg), cfg);
    }
  }

  lemma RepeatedIsIgnored(s: State, e: Event, text: string, cfg: Config)
    requires Repeats(s, e, cfg)
    ensures Apply(s, e, cfg) == EnterTurn(s, e.turnId) && FailAcp(s, e, text, cfg) == s
    ensures s.currentTurn == Some(e.turnId) ==> Apply(s, e, cfg) == s
  {
    hide Reduce, EnforceBudget, SetAcpError, Recorded;
  }

  /** The events that end a turn, or make it wait for the user. */
  predicate IsEnd(e: Event) {
    e.TurnCompleted? || e.TurnCancelled? || e.TurnFailed? || e.NeedUserInput?
  }

  /** Two ends of one turn, however it ended, or two questions alike in turn, call and hash. */
  predicate SameEnd(e: Event, f: Event, cfg: Config) {
    && IsEnd(e) && IsEnd(f) && e.turnId == f.turnId && (e.NeedUserInput? <==> f.NeedUserInput?)
    && (e.NeedUserInput? ==> e.pendingCallId == f.pendingCallId && cfg.hash(e.question) == cfg.hash(f.question))
  }

  lemma KeysTell(e: Event, f: Event, cfg: Config)
    ensures TerminalKeyOf(e, cfg).Some? <==> IsEnd(e)
    ensures IsEnd(e) && IsEnd(f) ==> (TerminalKeyOf(e, cfg) == TerminalKeyOf(f, cfg) <==> SameEnd(e, f, cfg))
  {
  }

  lemma {:induction false} TrimTerminalsFewer(s: State)
    ensures TrimTerminals(s).terminalEvents <= s.terminalEvents
    decreases |s.terminalOrder|
  {
    if |s.terminalOrder| > MAX_TERMINAL_EVENTS {
      TrimTerminalsFewer(s.(terminalEvents := s.terminalEvents - {s.terminalOrder[0]},
                            terminalOrder := s.terminalOrder[1..]));
    }
  }

  lemma RecordedAddsOne(s: State, e: Event, cfg: Config)
    requires TerminalKeyOf(e, cfg).Some?
    ensures Recorded(s, e, cfg).terminalEvents <= s.terminalEvents + {TerminalKeyOf(e, cfg).value}
  {
    var key := TerminalKeyOf(e, cfg).value;
    if key !in s.terminalEvents {
      TrimTerminalsFewer(s.(terminalEvents := s.terminalEvents + {key}, terminalOrder := s.terminalOrder + [key]));
    }
  }

  lemma AppliedTerminals(s: State, e: Event, cfg: Config)
    requires TerminalKeyOf(e, cfg).Some?
    ensures Apply(s, e, cfg).terminalEvents <= s.terminalEvents + {TerminalKeyOf(e, cfg).value}
  {
    hide Reduce, EnforceBudget, Recorded;
    var s1 := EnterTurn(s, e.turnId);
    RecordedAddsOne(s1, e, cfg);
    EndTerminals(Recorded(s1, e, cfg), e, cfg);
    EnforceTerminals(Reduce(Recorded(s1, e, cfg), e, cfg), cfg);
  }

  /** After an end, another event is a repetition only if it was one before or is the same end, and that it is. */
  lemma EndsRepeatIff(s: State, e: Event, f: Event, cfg: Config)
    requires MemoryOk(s) && IsEnd(e)
    ensures SameEnd(e, f, cfg) ==> Repeats(Apply(s, e, cfg), f, cfg)
    ensures Repeats(Apply(s, e, cfg), f, cfg) ==> Repeats(s, f, cfg) || SameEnd(e, f, cfg)
    ensures Repeats(s, f, cfg) ==> IsEnd(f)
  {
    hide Apply, MemoryOk, TerminalKeyOf, SameEnd, FailAcp, IsEnd;
    KeysTell(e, f, cfg);
    KeysTell(f, e, cfg);
    EndIsRecorded(s, e, "", cfg);
    AppliedTerminals(s, e, cfg);
    SameEndsEnd(e, f, cfg);
  }

  lemma SameEndsEnd(e: Event, f: Event, cfg: Config)
    ensures SameEnd(e, f, cfg) ==> IsEnd(e) && IsEnd(f)
  {
  }

  /**
   A turn's end counts once. Applying the same terminal event again changes nothing;
   so does failing the connection for it again; and the event that arrives after its
   connection failed, or the failure after the event, leaves no second trace.
   */
  lemma TurnEndsOnce(s: State, e: Event, text: string, again: string, cfg: Config)
    requires MemoryOk(s) && IsEnd(e)
    ensures Apply(Apply(s, e, cfg), e, cfg) == Apply(s, e, cfg)
    ensures FailAcp(FailAcp(s, e, text, cfg), e, again, cfg) == FailAcp(s, e, text, cfg)
    ensures Apply(FailAcp(s, e, text, cfg), e, cfg) == EnterTurn(FailAcp(s, e, text, cfg), e.turnId)
    ensures FailAcp(Apply(s, e, cfg), e, text, cfg) == Apply(s, e, cfg)
  {
    hide Apply, FailAcp, MemoryOk, Repeats;
    KeysTell(e, e, cfg);
    EndIsRecorded(s, e, text, cfg);
    AppliedTurn(s, e, cfg);
    RepeatedIsIgnored(Apply(s, e, cfg), e, text, cfg);
    RepeatedIsIgnored(FailAcp(s, e, text, cfg), e, again, cfg);
  }
}
