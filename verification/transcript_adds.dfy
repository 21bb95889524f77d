/**
 The messages that events and requests add: one new message behind those that were
 there, with a fresh id, the turn, and in every field what the event or request says.
 */
module TranscriptAdds {
  import opened Basics
  import opened BoundedText
  import opened FencedBlocks
  import opened TranscriptState
  import opened TranscriptInvariant
  import opened TranscriptBudget
  import opened TranscriptSegments
  import opened TranscriptStuck
  import opened TranscriptCards
  import opened TranscriptRows
  import opened TranscriptRequests
  import opened TranscriptLifecycles
  import opened TranscriptSingleRows
  import opened TranscriptMemory

  /** The two states hold the same messages and check their budget alike. */
  ghost predicate LookAlike(s: State, t: State) {
    && t.messages == s.messages && t.deferred == s.deferred && t.streamingId == s.streamingId
    && t.activeStatusId == s.activeStatusId && t.acpStatusId == s.acpStatusId
  }

  function With(before: State, m: Message): State {
    before.(messages := before.messages + [m])
  }

  /**
   Behind the messages of `before` stands m, with a newer id than theirs, and what then
   has to go is gone. With the budget deferred nothing goes and no field is cut.
   */
  ghost predicate Adds(before: State, t: State, m: Message, cfg: Config) {
    && (forall i :: 0 <= i < |before.messages| ==> before.messages[i].id < m.id)
    && t.messages == Survivors(Bounded(With(before, m), cfg).messages, Leaving(With(before, m), cfg))
    && (before.deferred ==> t.messages == before.messages + [m])
  }

  lemma SameOrder(s: State, t: State)
    requires LookAlike(s, t)
    ensures EvictionOrder(t) == EvictionOrder(s)
  {
    SideAgreesAll(s, t, s.messages, false);
    SideAgreesAll(s, t, s.messages, true);
  }

  lemma SideAgreesAll(s: State, t: State, ms: seq<Message>, prot: bool)
    requires LookAlike(s, t)
    ensures Side(t, ms, prot) == Side(s, ms, prot)
  {
    hide Unfinished;
    forall i | 0 <= i < |ms| ensures IsProtected(s, ms[i]) == IsProtected(t, ms[i]) {
    }
    SideAgrees(s, t, ms, prot);
  }

  lemma SameLeaving(s: State, t: State, cfg: Config)
    requires LookAlike(s, t)
    ensures Leaving(t, cfg) == Leaving(s, cfg) && Bounded(t, cfg).messages == Bounded(s, cfg).messages
  {
    hide EvictionOrder, OverBudget, Survivors, Ids, TruncateFields;
    SameOrder(Bounded(s, cfg), Bounded(t, cfg));
  }

  lemma NobodyLeft(s: State, cfg: Config)
    requires s.deferred
    ensures Survivors(Bounded(s, cfg).messages, Leaving(s, cfg)) == s.messages
  {
    NobodyLeaves(s, cfg);
    NobodyGone(s.messages);
  }

  lemma PushAdds(u: State, before: State, m: Message, cfg: Config)
    requires Inv(u) && LookAlike(u, before)
    ensures Adds(before, EnforceBudget(Push(u, m), cfg), m.(id := u.nextId, turn := u.currentTurn), cfg)
  {
    hide HasTag, Survivors, Leaving, EnforceBudget, Bounded;
    var new_ := m.(id := u.nextId, turn := u.currentTurn);
    assert Stamp([m], u.currentTurn, u.nextId) == [new_];
    PushKeeps(u, m);
    CheckIsForeseen(Push(u, m), cfg);
    SameLeaving(Push(u, m), With(before, new_), cfg);
    if before.deferred {
      NobodyLeft(With(before, new_), cfg);
    }
  }

  // ----- events -----

  lemma {:induction false} TrimmedTerminals(s: State)
    ensures var t := TrimTerminals(s);
            t == s.(terminalEvents := t.terminalEvents, terminalOrder := t.terminalOrder)
    decreases |s.terminalOrder|
  {
    if |s.terminalOrder| > MAX_TERMINAL_EVENTS {
      TrimmedTerminals(s.(terminalEvents := s.terminalEvents - {s.terminalOrder[0]},
                          terminalOrder := s.terminalOrder[1..]));
    }
  }

  /** Recording a terminal event changes what is remembered of terminal events only. */
  lemma RecordedIs(s: State, e: Event, cfg: Config)
    ensures var t := Recorded(s, e, cfg);
            t == s.(terminalEvents := t.terminalEvents, terminalOrder := t.terminalOrder)
  {
    hide TrimTerminals;
    var key := TerminalKeyOf(e, cfg);
    if key.Some? && key.value !in s.terminalEvents {
      TrimmedTerminals(s.(terminalEvents := s.terminalEvents + {key.value},
                          terminalOrder := s.terminalOrder + [key.value]));
    }
  }

  /** What a turn's event finds when it has ended the status row and the segment. */
  function Settled(s: State, e: Event, cfg: Config): State {
    CloseSegment(FinishStatus(EnterTurn(s, e.turnId)), cfg)
  }

  lemma SettledAlike(s: State, e: Event, cfg: Config)
    ensures var u, t := CloseSegment(FinishStatus(Recorded(EnterTurn(s, e.turnId), e, cfg)), cfg), Settled(s, e, cfg);
            LookAlike(u, t) && u.nextId == t.nextId && u.currentTurn == Some(e.turnId)
  {
    hide Recorded, Finished, WithoutId, Splice, Stamp, Position;
    RecordedIs(EnterTurn(s, e.turnId), e, cfg);
  }

  lemma FinishedAlike(s: State, e: Event, cfg: Config)
    ensures var u, t := FinishStatus(Recorded(EnterTurn(s, e.turnId), e, cfg)), FinishStatus(s);
            LookAlike(u, t) && u.nextId == s.nextId && u.currentTurn == Some(e.turnId)
  {
    hide Recorded, WithoutId;
    RecordedIs(EnterTurn(s, e.turnId), e, cfg);
  }

  lemma AddedTwice(u: State, before: State, m: Message, cfg: Config)
    requires Inv(u) && LookAlike(u, before)
    ensures Adds(before, EnforceBudget(EnforceBudget(Push(u, m), cfg), cfg),
                 m.(id := u.nextId, turn := u.currentTurn), cfg)
  {
    hide Inv, Adds, EnforceBudget, Push;
    PushAdds(u, before, m, cfg);
    EnforceTwice(Push(u, m), cfg);
  }

  /** A user message says what is left of the event's text without its inline images, in the event's turn. */
  lemma UserMessageAdds(s: State, e: Event, cfg: Config)
    requires Inv(s) && e.UserMessage?
    ensures Adds(s, Apply(s, e, cfg),
                 Message(s.nextId, Some(e.turnId), UserRole, cfg.userText(e.text), "", Text, false), cfg)
  {
    hide Inv, Adds, EnforceBudget, Push;
    var u := EnterTurn(s, e.turnId);
    EnteredKeeps(s, e.turnId);
    AddedTwice(u, s, NewMessage(UserRole, cfg.userText(e.text), Text, false), cfg);
  }

  /** A cancelled turn ends the status row and the segment, and says so. */
  lemma CancellationAdds(s: State, e: Event, cfg: Config)
    requires Inv(s) && e.TurnCancelled? && !Repeats(EnterTurn(s, e.turnId), e, cfg)
    ensures var before := Settled(s, e, cfg);
            Adds(before, Apply(s, e, cfg),
                 Message(before.nextId, Some(e.turnId), SystemRole, cfg.cancelledText, "", Text, false), cfg)
  {
    hide Inv, Adds, EnforceBudget, Push, CloseSegment, FinishStatus, Recorded, Repeats, EnterTurn;
    var u := Recorded(EnterTurn(s, e.turnId), e, cfg);
    AppliedIs(s, e, NoKey, cfg);
    SettledAlike(s, e, cfg);
    SettledKeeps(u, cfg);
    PushAdds(CloseSegment(FinishStatus(u), cfg), Settled(s, e, cfg), SystemMessage(cfg.cancelledText), cfg);
  }

  /** A failed turn ends the status row, lets go of the segment, and tells the reason. */
  lemma FailureAdds(s: State, e: Event, cfg: Config)
    requires Inv(s) && e.TurnFailed? && !Repeats(EnterTurn(s, e.turnId), e, cfg)
    ensures var before := FinishStatus(s).(streamingId := None);
            Adds(before, Apply(s, e, cfg),
                 Message(s.nextId, Some(e.turnId), SystemRole, cfg.failedText(e.reason), "", Text, false), cfg)
  {
    hide Inv, Adds, EnforceBudget, Push, FinishStatus, Recorded, Repeats, EnterTurn;
    var u := Recorded(EnterTurn(s, e.turnId), e, cfg);
    AppliedIs(s, e, NoKey, cfg);
    FinishedAlike(s, e, cfg);
    FinishStatusKeeps(u);
    UnstreamedKeeps(FinishStatus(u));
    PushAdds(FinishStatus(u).(streamingId := None), FinishStatus(s).(streamingId := None),
             SystemMessage(cfg.failedText(e.reason)), cfg);
  }

  /** A card message of that id and turn. */
  function CardRow(id: nat, turn: Option<string>, card: Card): Message {
    Message(id, turn, AssistantRole, "", "", CardOf(card), false)
  }

  lemma StartAlike(s: State, e: Event, cfg: Config)
    requires e.ToolCallStarted?
    ensures var s1 := EnterTurn(s, e.turnId);
            var u, t := CacheToolInput(CloseSegment(FinishStatus(s1), cfg), e.callId, e.arguments), Settled(s, e, cfg);
            && LookAlike(u, t) && u.nextId == t.nextId && u.currentTurn == Some(e.turnId)
            && Reduce(s1, e, cfg) == Push(u, CardMessage(StartedCard(e, cfg)))
  {
    hide CacheToolInput, Finished, WithoutId, Splice, Stamp, Position, BoundTool, Push;
    var v := Settled(s, e, cfg);
    CacheRows(v, e.callId, e.arguments);
    CachedDeferred(v, e.callId, e.arguments);
    CachedPlan(v, e.callId, e.arguments);
  }

  /**
   A tool call ends the status row and the segment and adds a running card with its
   name, action and input, and with nothing observed yet.
   */
  lemma ToolCallAdds(s: State, e: Event, cfg: Config) returns (d: ToolCardData)
    requires Inv(s) && e.ToolCallStarted?
    ensures var before := Settled(s, e, cfg);
            Adds(before, Apply(s, e, cfg), CardRow(before.nextId, Some(e.turnId), ToolCard(d)), cfg)
    ensures d == ToolCardData(e.callId, TruncateToRecent(e.toolName, CardLimit(cfg)), e.action, None, None,
                              TruncateToRecent(e.arguments.summary, CardLimit(cfg)),
                              TruncateToRecent(e.arguments.json, CardLimit(cfg)), true, None, "", "", [], None)
  {
    hide Inv, Adds, EnforceBudget, Push, CloseSegment, FinishStatus, EnterTurn, CacheToolInput, TruncateToRecent,
         BoundTool;
    var s1 := EnterTurn(s, e.turnId);
    var v := CloseSegment(FinishStatus(s1), cfg);
    d := StartedCard(e, cfg).tool;
    StartedFields(e, cfg);
    StartAlike(s, e, cfg);
    EnteredKeeps(s, e.turnId);
    SettledKeeps(s1, cfg);
    CacheRows(v, e.callId, e.arguments);
    SameRowsKeep(v, CacheToolInput(v, e.callId, e.arguments));
    PushAdds(CacheToolInput(v, e.callId, e.arguments), Settled(s, e, cfg), CardMessage(ToolCard(d)), cfg);
  }

  lemma StartedFields(e: Event, cfg: Config)
    requires e.ToolCallStarted?
    ensures StartedCard(e, cfg) ==
            ToolCard(ToolCardData(e.callId, TruncateToRecent(e.toolName, CardLimit(cfg)), e.action, None, None,
                                  TruncateToRecent(e.arguments.summary, CardLimit(cfg)),
                                  TruncateToRecent(e.arguments.json, CardLimit(cfg)), true, None, "", "", [], None))
  {
    EmptyStays(CardLimit(cfg));
  }

  lemma SubagentAlike(s: State, e: Event, cfg: Config)
    requires e.SubAgentStarted?
    ensures var s1 := EnterTurn(s, e.turnId);
            var d := BoundSubagent(SubAgentData(e.subagentId, e.name, e.task, true, None, ""), CardLimit(cfg));
            var u, t := UpsertSubagent(CloseSegment(FinishStatus(s1), cfg), d, cfg), Settled(s, e, cfg);
            && LookAlike(u, t) && u.nextId == t.nextId && u.currentTurn == Some(e.turnId)
            && u == t.(activeSubagents := u.activeSubagents)
            && Reduce(s1, e, cfg) == Push(u, CardMessage(SubAgentCard(d)))
  {
    hide Finished, WithoutId, Splice, Stamp, Position, BoundSubagent, Push, TrimSubagents, FindSubagent;
  }

  lemma SubagentFields(id: string, name: string, task: string, cfg: Config)
    ensures BoundSubagent(SubAgentData(id, name, task, true, None, ""), CardLimit(cfg)) ==
            SubAgentData(id, TruncateToRecent(name, CardLimit(cfg)), TruncateToRecent(task, CardLimit(cfg)),
                         true, None, "")
  {
    EmptyStays(CardLimit(cfg));
  }

  lemma SamePanelKeeps(s: State, u: State)
    requires Inv(s) && u == s.(activeSubagents := u.activeSubagents)
    ensures Inv(u)
  {
  }

  /** A subagent ends the status row and the segment and adds a running card with its name and task. */
  lemma SubagentAdds(s: State, e: Event, cfg: Config) returns (d: SubAgentData)
    requires Inv(s) && e.SubAgentStarted?
    ensures var before := Settled(s, e, cfg);
            Adds(before, Apply(s, e, cfg), CardRow(before.nextId, Some(e.turnId), SubAgentCard(d)), cfg)
    ensures d == SubAgentData(e.subagentId, TruncateToRecent(e.name, CardLimit(cfg)),
                              TruncateToRecent(e.task, CardLimit(cfg)), true, None, "")
  {
    hide Inv, Adds, EnforceBudget, Push, CloseSegment, FinishStatus, EnterTurn, TruncateToRecent, BoundSubagent,
         UpsertSubagent;
    var s1 := EnterTurn(s, e.turnId);
    d := BoundSubagent(SubAgentData(e.subagentId, e.name, e.task, true, None, ""), CardLimit(cfg));
    SubagentFields(e.subagentId, e.name, e.task, cfg);
    SubagentAlike(s, e, cfg);
    EnteredKeeps(s, e.turnId);
    SettledKeeps(s1, cfg);
    var u := UpsertSubagent(CloseSegment(FinishStatus(s1), cfg), d, cfg);
    SamePanelKeeps(CloseSegment(FinishStatus(s1), cfg), u);
    PushAdds(u, Settled(s, e, cfg), CardMessage(SubAgentCard(d)), cfg);
  }

  // ----- requests -----

  lemma AskAdds(s: State, card: Card, cfg: Config)
    requires Inv(s)
    ensures var before := CloseSegment(FinishStatus(s), cfg);
            Adds(before, EnforceBudget(Asked(s, card, cfg), cfg), CardRow(before.nextId, s.currentTurn, card), cfg)
  {
    hide Inv, Adds, EnforceBudget, Push, CloseSegment, FinishStatus;
    SettledKeeps(s, cfg);
    SettledPlan(s, cfg);
    PushAdds(CloseSegment(FinishStatus(s), cfg), CloseSegment(FinishStatus(s), cfg), CardMessage(card), cfg);
  }

  /** An approval request adds a pending card with its tool, question and input and without further items. */
  lemma ApprovalAdds(s: State, d: ConfirmData, cfg: Config)
    requires Inv(s) && !HasPendingConfirm(s, d.callId)
    ensures var before, max := CloseSegment(FinishStatus(s), cfg), CardLimit(cfg);
            var card := ConfirmCard(ConfirmData(
              d.callId, TruncateToRecent(d.toolName, max), [], TruncateToRecent(d.inputSummary, max),
              TruncateToRecent(d.inputJson, max), TruncateToRecent(d.question, max), Pending));
            Adds(before, PushMcpApproval(s, d, cfg), CardRow(before.nextId, s.currentTurn, card), cfg)
  {
    hide Inv, EnforceBudget, Push, CloseSegment, FinishStatus, HasPendingConfirm, TruncateToRecent, Survivors, Leaving,
         Bounded, ApprovalCard;
    var s0 := s.(publicMcpIds := s.publicMcpIds + {d.callId});
    SameRowsKeep(s, s0);
    ApprovalIs(s, d, cfg);
    AskAdds(s0, ApprovalCard(d, cfg), cfg);
    ApprovalFields(d, cfg);
    PublicAlike(s, s0, cfg);
    AddsAlike(CloseSegment(FinishStatus(s0), cfg), CloseSegment(FinishStatus(s), cfg), PushMcpApproval(s, d, cfg),
              CardRow(CloseSegment(FinishStatus(s), cfg).nextId, s.currentTurn, ApprovalCard(d, cfg)), cfg);
  }

  lemma PublicAlike(s: State, s0: State, cfg: Config)
    requires s0 == s.(publicMcpIds := s0.publicMcpIds)
    ensures var t, t0 := CloseSegment(FinishStatus(s), cfg), CloseSegment(FinishStatus(s0), cfg);
            LookAlike(t0, t) && t0.nextId == t.nextId
  {
    hide Finished, WithoutId, Splice, Stamp, Position;
  }

  lemma AddsAlike(before: State, alike: State, t: State, m: Message, cfg: Config)
    requires LookAlike(before, alike) && Adds(before, t, m, cfg)
    ensures Adds(alike, t, m, cfg)
  {
    hide Survivors, Leaving, Bounded;
    SameLeaving(With(before, m), With(alike, m), cfg);
  }

  lemma ApprovalFields(d: ConfirmData, cfg: Config)
    ensures var max := CardLimit(cfg);
            ApprovalCard(d, cfg) == ConfirmCard(ConfirmData(
              d.callId, TruncateToRecent(d.toolName, max), [], TruncateToRecent(d.inputSummary, max),
              TruncateToRecent(d.inputJson, max), TruncateToRecent(d.question, max), Pending))
  {
    hide TruncateToRecent;
  }

  /** An option as a card shows it. */
  function ShownOption(option: PermissionOption, max: nat): PermissionOption {
    PermissionOption(option.optionId, TruncateToRecent(option.name, max), option.kind)
  }

  lemma {:induction false} OptionsShown(options: seq<PermissionOption>, max: nat)
    ensures |BoundOptions(options, max)| == |options|
    ensures forall i :: 0 <= i < |options| ==> BoundOptions(options, max)[i] == ShownOption(options[i], max)
  {
    hide TruncateToRecent;
    if options != [] {
      OptionsShown(options[1..], max);
    }
  }

  /**
   A permission request adds a pending card with its tool, summary, details and at most
   64 options, none of them selected.
   */
  lemma PermissionAdds(s: State, d: PermissionData, cfg: Config) returns (shown: PermissionData)
    requires Inv(s) && !HasPendingPermission(s, d.requestId)
    ensures var before := CloseSegment(FinishStatus(s), cfg);
            Adds(before, PushPermission(s, d, cfg), CardRow(before.nextId, s.currentTurn, PermissionCard(shown)), cfg)
    ensures var max := CardLimit(cfg);
            && shown.requestId == d.requestId && shown.toolName == TruncateToRecent(d.toolName, max)
            && shown.summary == TruncateToRecent(d.summary, max)
            && shown.detailsJson == TruncateToRecent(d.detailsJson, max)
            && shown.status == Pending && shown.selectedOptionName == ""
            && |shown.options| == Min(|d.options|, MAX_CARD_COLLECTION_ITEMS)
            && forall i :: 0 <= i < |shown.options| ==>
                 shown.options[i] == ShownOption(d.options[i], Min(max, MAX_CARD_ITEM_FIELD_BYTES))
  {
    hide Inv, Adds, EnforceBudget, Push, CloseSegment, FinishStatus, HasPendingPermission, TruncateToRecent, Asked;
    shown := RequestCard(d, cfg).permission;
    PermissionIs(s, d, cfg);
    AskAdds(s, RequestCard(d, cfg), cfg);
    EmptyStays(CardLimit(cfg));
    OptionsShown(First(d.options, MAX_CARD_COLLECTION_ITEMS), Min(CardLimit(cfg), MAX_CARD_ITEM_FIELD_BYTES));
  }

  /** A call of a question as the card shows it. */
  function ShownItem(item: ConfirmItem, max: nat): ConfirmItem {
    ConfirmItem(item.callId, TruncateToRecent(item.toolName, max), TruncateToRecent(item.inputSummary, max),
                TruncateToRecent(item.inputJson, max))
  }

  lemma {:induction false} ItemsShown(items: seq<ConfirmItem>, max: nat)
    ensures |BoundItems(items, max)| == |items|
    ensures forall i :: 0 <= i < |items| ==> BoundItems(items, max)[i] == ShownItem(items[i], max)
  {
    hide TruncateToRecent;
    if items != [] {
      ItemsShown(items[1..], max);
    }
  }

  /** The input a question shows: its own, or that of the last card of its call, or none. */
  ghost predicate AsksFor(summary: string, json: string, ms: seq<Message>, e: Event)
    requires e.NeedUserInput?
  {
    if e.requestedArguments.Some? && e.requestedArguments.value.json != "" then
      summary == e.requestedArguments.value.summary && json == e.requestedArguments.value.json
    else
      && (forall i: nat :: e.pendingCallId.Some? && LastCardAt(ms, ToolKey(e.pendingCallId.value), i) ==>
            var d := ms[i].variant.card.tool; summary == d.inputSummary && json == d.inputJson)
      && ((forall i :: 0 <= i < |ms| ==>
             !(e.pendingCallId.Some? && IsCard(ms[i], ToolKey(e.pendingCallId.value)))) ==>
            summary == "" && json == "")
  }

  lemma InputIsAskedFor(s: State, e: Event)
    requires e.NeedUserInput?
    ensures var input := ConfirmInput(s, e.pendingCallId, e.requestedArguments);
            AsksFor(input.0, input.1, s.messages, e)
  {
    if e.pendingCallId.Some? {
      var key := ToolKey(e.pendingCallId.value);
      FoundIsLast(s.messages, key);
      forall i: nat | LastCardAt(s.messages, key, i) ensures FindCard(s.messages, key) == Some(i) {
        LastIsFound(s.messages, key, i);
      }
    }
  }

  /** The card tells the question, with that input, within the limit. */
  ghost predicate Questions(d: ConfirmData, e: Event, summary: string, json: string, max: nat)
    requires e.NeedUserInput?
  {
    && d.callId == AskedCall(e) && d.status == Pending
    && d.toolName == TruncateToRecent(if e.requestedTool.Some? then e.requestedTool.value else "unknown", max)
    && d.question == TruncateToRecent(e.question, max)
    && d.inputSummary == TruncateToRecent(summary, max) && d.inputJson == TruncateToRecent(json, max)
    && |d.items| == Min(|e.pendingCalls|, MAX_CARD_COLLECTION_ITEMS)
    && forall i :: 0 <= i < |d.items| ==>
         d.items[i] == ShownItem(e.pendingCalls[i], Min(max, MAX_CARD_ITEM_FIELD_BYTES))
  }

  /**
   A question ends the status row and adds a pending card with its call, tool, question,
   at most 64 calls, and the input of its own or of the call's last card.
   */
  lemma QuestionAdds(s: State, e: Event, cfg: Config) returns (d: ConfirmData, summary: string, json: string)
    requires Inv(s) && e.NeedUserInput? && !Repeats(EnterTurn(s, e.turnId), e, cfg)
    ensures Adds(FinishStatus(s), Apply(s, e, cfg), CardRow(s.nextId, Some(e.turnId), ConfirmCard(d)), cfg)
    ensures AsksFor(summary, json, FinishStatus(s).messages, e) && Questions(d, e, summary, json, CardLimit(cfg))
  {
    hide Inv, Adds, EnforceBudget, Push, FinishStatus, Recorded, Repeats, EnterTurn, TruncateToRecent, ConfirmInput,
         AsksFor, Reduce;
    var u := Recorded(EnterTurn(s, e.turnId), e, cfg);
    var input := ConfirmInput(FinishStatus(s), e.pendingCallId, e.requestedArguments);
    summary, json := input.0, input.1;
    InputIsAskedFor(FinishStatus(s), e);
    d := QuestionCard(s, e, cfg).confirm;
    ItemsShown(First(e.pendingCalls, MAX_CARD_COLLECTION_ITEMS), Min(CardLimit(cfg), MAX_CARD_ITEM_FIELD_BYTES));
    AppliedIs(s, e, NoKey, cfg);
    EnteredAround(s, e, cfg);
    SameQuestion(s, u, e, cfg);
    QuestionIs(u, e, cfg);
    FinishedAlike(s, e, cfg);
    FinishStatusKeeps(u);
    AddedTwice(FinishStatus(u), FinishStatus(s), CardMessage(ConfirmCard(d)), cfg);
  }

  // ----- rows outside of events -----

  lemma ActIs(s: State, a: Action, cfg: Config)
    ensures a.PushSystem? ==> Act(s, a, cfg) == EnforceBudget(Push(s, SystemMessage(a.text)), cfg)
    ensures a.PushUser? ==> Act(s, a, cfg) == EnforceBudget(Push(s, NewMessage(UserRole, a.text, Text, false)), cfg)
    ensures a.PushCompaction? ==>
              Act(s, a, cfg) == EnforceBudget(Push(s, CardMessage(CompactionCard(a.originalItems, a.text))), cfg)
  {
    hide EnforceBudget, Apply, PushMcpApproval, PushPermission, DecidePermission, SetAcpStatus, SetAcpError, FailAcp,
         ClearAcpStatus, Push;
  }

  /** System, user and compaction rows say what they are given, in the current turn. */
  lemma RowsAdd(s: State, text: string, originalItems: nat, cfg: Config)
    requires Inv(s)
    ensures Adds(s, Act(s, PushSystem(text), cfg),
                 Message(s.nextId, s.currentTurn, SystemRole, text, "", Text, false), cfg)
    ensures Adds(s, Act(s, PushUser(text), cfg),
                 Message(s.nextId, s.currentTurn, UserRole, text, "", Text, false), cfg)
    ensures Adds(s, Act(s, PushCompaction(text, originalItems), cfg),
                 CardRow(s.nextId, s.currentTurn, CompactionCard(originalItems, text)), cfg)
  {
    hide Inv, Adds, EnforceBudget, Push, Act;
    ActIs(s, PushSystem(text), cfg);
    ActIs(s, PushUser(text), cfg);
    ActIs(s, PushCompaction(text, originalItems), cfg);
    PushAdds(s, s, SystemMessage(text), cfg);
    PushAdds(s, s, NewMessage(UserRole, text, Text, false), cfg);
    PushAdds(s, s, CardMessage(CompactionCard(originalItems, text)), cfg);
  }

  // ----- rows that may be there -----

  /** The budget check leaves of u what does not have to go. */
  ghost predicate LeftOf(u: State, t: State, cfg: Config) {
    && t.messages == Survivors(Bounded(u, cfg).messages, Leaving(u, cfg))
    && (u.deferred ==> t.messages == u.messages)
  }

  lemma CheckLeaves(u: State, alike: State, cfg: Config)
    requires Inv(u) && LookAlike(u, alike)
    ensures LeftOf(alike, EnforceBudget(u, cfg), cfg)
  {
    hide Inv, Survivors, Leaving, EnforceBudget, Bounded;
    CheckIsForeseen(u, cfg);
    SameLeaving(u, alike, cfg);
    if u.deferred {
      NobodyLeft(alike, cfg);
    }
  }

  function Retitled(title: string, isDone: bool): Message -> Message {
    (m: Message) => m.(variant := Status(title, isDone), isStreaming := !isDone)
  }

  function Replanned(plan: PlanData): Message -> Message {
    (m: Message) => m.(variant := CardOf(PlanCard(plan)))
  }

  function Failing(text: string): Message -> Message {
    (m: Message) => Message(m.id, None, SystemRole, text, "", Text, false)
  }

  /** The messages with the row of that id changed, or with a new row behind them. */
  ghost predicate PutsRow(ms: seq<Message>, after: seq<Message>, id: Option<nat>, old_: Message -> Message,
                          new_: Message)
  {
    if exists i :: 0 <= i < |ms| && id == Some(ms[i].id) then
      && |after| == |ms|
      && forall i :: 0 <= i < |ms| ==> after[i] == if id == Some(ms[i].id) then old_(ms[i]) else ms[i]
    else after == ms + [new_]
  }

  lemma PutsAt(ms: seq<Message>, after: seq<Message>, id: Option<nat>, old_: Message -> Message, new_: Message)
    requires Distinct(ms)
    requires var i := PositionOf(ms, id);
             if i.Some? then after == ms[i.value := old_(ms[i.value])] else after == ms + [new_]
    ensures PutsRow(ms, after, id, old_, new_)
  {
  }

  lemma RowEventIs(s: State, e: Event, cfg: Config)
    ensures e.StatusChanged? ==>
              Apply(s, e, cfg) == EnforceBudget(UpsertStatus(EnterTurn(s, e.turnId), e.title, e.isDone), cfg)
    ensures e.PlanUpdated? ==> Apply(s, e, cfg) == EnforceBudget(UpsertPlan(EnterTurn(s, e.turnId), e.plan), cfg)
  {
    hide EnforceBudget, UpsertStatus, UpsertPlan, EnterTurn, AppendDelta, AppendReasoning, FinalizeAssistant,
         PushConfirm, PushToolCall, ApplyObservation, FinishToolCall, ResolveConfirm, PushSubagent, UpdateSubagent,
         FinishSubagent, CloseSegment, FinishStatus, Push;
  }

  /**
   A status change shows its title on the active row, or on a new row of the turn; the
   row is being written exactly until it is done, and then nothing is active.
   */
  lemma StatusPuts(s: State, e: Event, cfg: Config) returns (u: State)
    requires Inv(s) && e.StatusChanged?
    ensures PutsRow(s.messages, u.messages, s.activeStatusId,
                    Retitled(e.title, e.isDone),
                    Message(s.nextId, Some(e.turnId), AssistantRole, "", "", Status(e.title, e.isDone), !e.isDone))
    ensures u.deferred == s.deferred && u.streamingId == s.streamingId && u.acpStatusId == s.acpStatusId
    ensures u.activeStatusId == if e.isDone then None else if s.activeStatusId.Some? then s.activeStatusId
                                                           else Some(s.nextId)
    ensures LeftOf(u, Apply(s, e, cfg), cfg)
  {
    hide LeftOf, EnforceBudget, HasTag, Apply;
    RowEventIs(s, e, cfg);
    var s1 := EnterTurn(s, e.turnId);
    EnteredKeeps(s, e.turnId);
    u := UpsertStatus(s1, e.title, e.isDone);
    UpsertStatusKeeps(s1, e.title, e.isDone);
    CheckLeaves(u, u, cfg);
    if PositionOf(s.messages, s.activeStatusId).None? {
      StatusIsGone(s);
    }
    PutsAt(s.messages, u.messages, s.activeStatusId,
           Retitled(e.title, e.isDone),
           Message(s.nextId, Some(e.turnId), AssistantRole, "", "", Status(e.title, e.isDone), !e.isDone));
  }

  /** A plan shows on the turn's plan row, or on a new row of the turn. */
  lemma PlanPuts(s: State, e: Event, cfg: Config) returns (u: State)
    requires Inv(s) && e.PlanUpdated?
    ensures PutsRow(s.messages, u.messages, if s.currentTurn == Some(e.turnId) then s.planMessageId else None,
                    Replanned(e.plan), CardRow(s.nextId, Some(e.turnId), PlanCard(e.plan)))
    ensures LookAlike(s.(messages := u.messages), u) && LeftOf(u, Apply(s, e, cfg), cfg)
  {
    hide LeftOf, EnforceBudget, HasTag, Apply;
    RowEventIs(s, e, cfg);
    var s1 := EnterTurn(s, e.turnId);
    EnteredKeeps(s, e.turnId);
    u := UpsertPlan(s1, e.plan);
    UpsertPlanKeeps(s1, e.plan);
    CheckLeaves(u, u, cfg);
    PutsAt(s.messages, u.messages, s1.planMessageId,
           Replanned(e.plan), CardRow(s.nextId, Some(e.turnId), PlanCard(e.plan)));
  }

  /** A connection status shows on its row, or on a new row without a turn. */
  lemma ConnectionPuts(s: State, title: string, cfg: Config) returns (u: State)
    requires Inv(s)
    ensures PutsRow(s.messages, u.messages, s.acpStatusId,
                    Retitled(title, false),
                    Message(s.nextId, None, AssistantRole, "", "", Status(title, false), true))
    ensures u.deferred == s.deferred && u.streamingId == s.streamingId && u.activeStatusId == s.activeStatusId
    ensures u.acpStatusId == if s.acpStatusId.Some? then s.acpStatusId else Some(s.nextId)
    ensures LeftOf(u, SetAcpStatus(s, title, cfg), cfg)
  {
    hide LeftOf, EnforceBudget, HasTag;
    u := WithAcpStatus(s, title);
    AcpRowKeeps(s, title);
    CheckLeaves(u, u, cfg);
    if PositionOf(s.messages, s.acpStatusId).None? {
      ConnectionIsGone(s);
    }
    PutsAt(s.messages, u.messages, s.acpStatusId, Retitled(title, false),
           Message(s.nextId, None, AssistantRole, "", "", Status(title, false), true));
  }

  lemma ConnectionIsGone(s: State)
    requires Inv(s) && PositionOf(s.messages, s.acpStatusId).None?
    ensures s.acpStatusId.None?
  {
  }

  /** A connection error ends the status row and shows instead of the connection's row, or on a new row. */
  lemma ErrorPuts(s: State, text: string, cfg: Config) returns (u: State)
    requires Inv(s)
    ensures PutsRow(FinishStatus(s).messages, u.messages, s.acpStatusId,
                    Failing(text),
                    Message(s.nextId, None, SystemRole, text, "", Text, false))
    ensures u.deferred == s.deferred && u.streamingId == s.streamingId
    ensures u.activeStatusId.None? && u.acpStatusId.None? && LeftOf(u, SetAcpError(s, text, cfg), cfg)
  {
    hide LeftOf, EnforceBudget, HasTag, WithoutId;
    var s1 := FinishStatus(s);
    FinishStatusKeeps(s);
    u := WithAcpError(s1, text);
    ErrorRowKeeps(s1, text);
    CheckLeaves(u, u, cfg);
    PutsAt(s1.messages, u.messages, s.acpStatusId, Failing(text),
           Message(s.nextId, None, SystemRole, text, "", Text, false));
  }

  // ----- assistant text -----

  function Saying(delta: string, cfg: Config): Message -> Message {
    (m: Message) => m.(content := AppendBounded(m.content, delta, cfg.maxFieldBytes))
  }

  function Thinking(delta: string, cfg: Config): Message -> Message {
    (m: Message) => m.(reasoning := AppendBounded(m.reasoning, delta, cfg.maxFieldBytes))
  }

  /** The segment being written has visible text. */
  ghost predicate HasSpoken(s: State) {
    exists i :: 0 <= i < |s.messages| && s.streamingId == Some(s.messages[i].id) && Trim(s.messages[i].content) != ""
  }

  lemma HasSpokenIff(s: State)
    requires Inv(s)
    ensures SegmentHasText(s) <==> HasSpoken(s)
  {
    hide Trim, HasTag;
    IdsDiffer(s);
    var i := PositionOf(s.messages, s.streamingId);
  }

  lemma SegmentIsGone(s: State)
    requires Inv(s) && PositionOf(s.messages, s.streamingId).None?
    ensures s.streamingId.None?
  {
  }

  lemma EnteredFinish(s: State, turn: string)
    ensures FinishStatus(EnterTurn(s, turn)) == EnterTurn(FinishStatus(s), turn)
  {
  }

  /** `PutOrOpen` puts its message where the segment is, or opens a segment behind everything. */
  lemma OpenPuts(s: State, m: Message, longer: Message -> Message, fresh_: Message)
    requires Inv(s)
    requires var i := PositionOf(s.messages, s.streamingId);
             if i.Some? then m == longer(s.messages[i.value])
             else fresh_ == m.(id := s.nextId, turn := s.currentTurn)
    ensures var t := PutOrOpen(s, PositionOf(s.messages, s.streamingId), m);
            && PutsRow(s.messages, t.messages, s.streamingId, longer, fresh_)
            && t.streamingId == (if s.streamingId.Some? then s.streamingId else Some(s.nextId))
            && t.deferred == s.deferred && t.activeStatusId == s.activeStatusId && t.acpStatusId == s.acpStatusId
  {
    hide HasTag, PutsRow;
    var i := PositionOf(s.messages, s.streamingId);
    IdsDiffer(s);
    if i.None? {
      assert Stamp([m], s.currentTurn, s.nextId) == [fresh_];
      SegmentIsGone(s);
    }
    PutsAt(s.messages, PutOrOpen(s, i, m).messages, s.streamingId, longer, fresh_);
  }

  lemma DeltaIs(s: State, e: Event, cfg: Config)
    ensures e.AssistantMessageDelta? ==>
              Apply(s, e, cfg) == EnforceBudget(AppendDelta(EnterTurn(s, e.turnId), e.delta, cfg), cfg)
    ensures e.ReasoningDelta? ==>
              Apply(s, e, cfg) == EnforceBudget(AppendReasoning(EnterTurn(s, e.turnId), e.delta, cfg), cfg)
  {
    hide EnforceBudget, UpsertStatus, UpsertPlan, EnterTurn, AppendDelta, AppendReasoning, FinalizeAssistant,
         PushConfirm, PushToolCall, ApplyObservation, FinishToolCall, ResolveConfirm, PushSubagent, UpdateSubagent,
         FinishSubagent, CloseSegment, FinishStatus, Push;
  }

  /**
   A text delta ends the status row and makes the segment's text longer, or opens a
   segment of the turn that holds it alone.
   */
  lemma TextPuts(s: State, e: Event, cfg: Config) returns (u: State)
    requires Inv(s) && e.AssistantMessageDelta?
    ensures PutsRow(FinishStatus(s).messages, u.messages, s.streamingId, Saying(e.delta, cfg),
                    Message(s.nextId, Some(e.turnId), AssistantRole, AppendBounded("", e.delta, cfg.maxFieldBytes), "",
                            Text, true))
    ensures u.streamingId == if s.streamingId.Some? then s.streamingId else Some(s.nextId)
    ensures u.deferred == s.deferred && u.activeStatusId.None? && LeftOf(u, Apply(s, e, cfg), cfg)
  {
    hide Inv, LeftOf, EnforceBudget, Apply, PutsRow, PutOrOpen, AppendBounded, WithoutId;
    DeltaIs(s, e, cfg);
    var s1 := FinishStatus(EnterTurn(s, e.turnId));
    EnteredKeeps(s, e.turnId);
    FinishStatusKeeps(EnterTurn(s, e.turnId));
    u := AppendDelta(EnterTurn(s, e.turnId), e.delta, cfg);
    AppendDeltaKeeps(EnterTurn(s, e.turnId), e.delta, cfg);
    CheckLeaves(u, u, cfg);
    OpenPuts(s1, WithText(s1.messages, PositionOf(s1.messages, s1.streamingId), e.delta, cfg), Saying(e.delta, cfg),
             Message(s.nextId, Some(e.turnId), AssistantRole, AppendBounded("", e.delta, cfg.maxFieldBytes), "",
                     Text, true));
  }

  /**
   A reasoning delta ends the status row and makes the segment's reasoning longer; when
   there is no segment, or it has visible text, a new segment of the turn holds it alone.
   */
  lemma ReasoningPuts(s: State, e: Event, cfg: Config) returns (u: State)
    requires Inv(s) && e.ReasoningDelta?
    ensures var onto := if HasSpoken(FinishStatus(s)) then None else s.streamingId;
            && PutsRow(FinishStatus(s).messages, u.messages, onto, Thinking(e.delta, cfg),
                       Message(s.nextId, Some(e.turnId), AssistantRole, "",
                               AppendBounded("", e.delta, cfg.maxFieldBytes), Text, true))
            && u.streamingId == if onto.Some? then onto else Some(s.nextId)
    ensures u.deferred == s.deferred && u.activeStatusId.None? && LeftOf(u, Apply(s, e, cfg), cfg)
  {
    hide Inv, LeftOf, EnforceBudget, Apply, PutsRow, PutOrOpen, AppendBounded, WithoutId, HasSpoken, SegmentHasText;
    DeltaIs(s, e, cfg);
    var s0 := FinishStatus(EnterTurn(s, e.turnId));
    EnteredKeeps(s, e.turnId);
    FinishStatusKeeps(EnterTurn(s, e.turnId));
    HasSpokenIff(s0);
    SpokenAlike(s0, FinishStatus(s));
    UnstreamedKeeps(s0);
    var s1 := if SegmentHasText(s0) then s0.(streamingId := None) else s0;
    u := AppendReasoning(EnterTurn(s, e.turnId), e.delta, cfg);
    AppendReasoningKeeps(EnterTurn(s, e.turnId), e.delta, cfg);
    CheckLeaves(u, u, cfg);
    OpenPuts(s1, WithReasoning(s1.messages, PositionOf(s1.messages, s1.streamingId), e.delta, cfg),
             Thinking(e.delta, cfg),
             Message(s.nextId, Some(e.turnId), AssistantRole, "", AppendBounded("", e.delta, cfg.maxFieldBytes),
                     Text, true));
  }

  lemma SpokenAlike(s: State, t: State)
    requires t.messages == s.messages && t.streamingId == s.streamingId
    ensures HasSpoken(s) <==> HasSpoken(t)
  {
  }

  // ----- what goes to cards that are there -----

  lemma ChangeIs(s: State, e: Event, cfg: Config)
    requires e.ObservationAdded? || e.AssistantMessage? || e.SubAgentUpdated? || e.SubAgentFinished?
             || e.ToolCallFinished? || e.ToolApprovalResolved?
    ensures var s1 := EnterTurn(s, e.turnId);
            && Apply(s, e, cfg) == EnforceBudget(Reduce(s1, e, cfg), cfg)
            && (e.ObservationAdded? ==> Reduce(s1, e, cfg) == ApplyObservation(s1, e.observation, cfg))
            && (e.AssistantMessage? ==> Reduce(s1, e, cfg) == FinalizeAssistant(s1, e.text, e.reasoning, cfg))
            && (e.SubAgentUpdated? ==> Reduce(s1, e, cfg) == UpdateSubagent(s1, e.subagentId, e.summary, cfg))
            && (e.SubAgentFinished? ==>
                Reduce(s1, e, cfg) == FinishSubagent(s1, e.subagentId, e.success, e.summary, cfg))
            && (e.ToolCallFinished? ==> Reduce(s1, e, cfg) == FinishToolCall(s1, e.callId, e.success))
            && (e.ToolApprovalResolved? ==> Reduce(s1, e, cfg) == ResolveConfirm(s1, e.callId, e.approved, cfg))
  {
    hide EnforceBudget, UpsertStatus, UpsertPlan, EnterTurn, AppendDelta, AppendReasoning, FinalizeAssistant,
         PushConfirm, PushToolCall, ApplyObservation, FinishToolCall, ResolveConfirm, PushSubagent, UpdateSubagent,
         FinishSubagent, CloseSegment, FinishStatus, Push;
  }

  ghost predicate NoCard(ms: seq<Message>, key: CardKey) {
    forall i :: 0 <= i < |ms| ==> !IsCard(ms[i], key)
  }

  /**
   Final texts, observations, answers, the ends of calls and the news of subagents leave
   what their own laws say (`FinalTextSpells`, `ObservationLands`, `ObservationRecreates`,
   `ConfirmIsAnswered`, `SubagentTells`, `SubagentEnds`) in the event's turn, but for what
   has to go; what is for a card or a subagent that is not known changes no message.
   */
  lemma ChangesReach(s: State, e: Event, cfg: Config) returns (u: State)
    requires Inv(s)
    requires e.ObservationAdded? || e.AssistantMessage? || e.SubAgentUpdated? || e.SubAgentFinished?
             || e.ToolCallFinished? || e.ToolApprovalResolved?
    ensures var s1 := EnterTurn(s, e.turnId);
            && (e.AssistantMessage? ==> u == FinalizeAssistant(s1, e.text, e.reasoning, cfg))
            && (e.ObservationAdded? ==> u == ApplyObservation(s1, e.observation, cfg))
            && (e.SubAgentUpdated? ==> u == UpdateSubagent(s1, e.subagentId, e.summary, cfg))
            && (e.SubAgentFinished? ==> u == FinishSubagent(s1, e.subagentId, e.success, e.summary, cfg))
            && (e.ToolCallFinished? ==> u == FinishToolCall(s1, e.callId, e.success))
            && (e.ToolApprovalResolved? ==> u == ResolveConfirm(s1, e.callId, e.approved, cfg))
    ensures (e.SubAgentUpdated? || e.SubAgentFinished?) && LookupSubagent(s, e.subagentId).None? ==>
              u.messages == s.messages
    ensures e.ToolCallFinished? && NoCard(s.messages, ToolKey(e.callId)) ==> u.messages == s.messages
    ensures e.ToolApprovalResolved? && NoCard(s.messages, ConfirmKey(e.callId)) ==> u.messages == s.messages
    ensures LeftOf(u, Apply(s, e, cfg), cfg)
  {
    hide Inv, EnforceBudget, Reduce, LeftOf, Apply;
    var s1 := EnterTurn(s, e.turnId);
    ChangeIs(s, e, cfg);
    EnteredKeeps(s, e.turnId);
    ReduceKeeps(s1, e, cfg);
    u := Reduce(s1, e, cfg);
    CheckLeaves(u, u, cfg);
  }

  // ----- what ends a turn or a row -----

  /** Exactly the message of that id is gone. */
  ghost predicate RowGoes(ms: seq<Message>, after: seq<Message>, id: Option<nat>) {
    if exists i :: 0 <= i < |ms| && id == Some(ms[i].id) then
      exists i :: 0 <= i < |ms| && id == Some(ms[i].id) && after == ms[..i] + ms[i + 1..]
    else after == ms
  }

  lemma WithoutGoes(ms: seq<Message>, id: Option<nat>)
    requires Distinct(ms)
    ensures RowGoes(ms, if id.Some? then WithoutId(ms, id.value) else ms, id)
  {
    hide WithoutId;
    if id.Some? {
      WithoutIdCuts(ms, id.value);
    }
  }

  /** Ending the status row removes it and nothing else; so does the end of the connection's row. */
  lemma StatusRowsGo(s: State)
    requires Inv(s)
    ensures var t := FinishStatus(s);
            && RowGoes(s.messages, t.messages, s.activeStatusId)
            && t == s.(messages := t.messages, activeStatusId := None)
    ensures var t := ClearAcpStatus(s);
            && RowGoes(s.messages, t.messages, s.acpStatusId) && t == s.(messages := t.messages, acpStatusId := None)
  {
    hide WithoutId, RowGoes;
    IdsDiffer(s);
    WithoutGoes(s.messages, s.activeStatusId);
    WithoutGoes(s.messages, s.acpStatusId);
  }

  lemma {:induction false} NothingIsRemembered(s: State, cfg: Config)
    requires s.streamingId.None? && s.activeStatusId.None?
    ensures Evict(s, cfg).streamingId.None? && Evict(s, cfg).activeStatusId.None?
    decreases |s.messages|
  {
    hide OverBudget, Victim;
    if s.messages != [] && OverBudget(s.messages, cfg) {
      NothingIsRemembered(RemoveMessage(s, Victim(s)), cfg);
    }
  }

  lemma CheckRemembersNothing(s: State, cfg: Config)
    requires s.streamingId.None? && s.activeStatusId.None?
    ensures EnforceBudget(s, cfg).streamingId.None? && EnforceBudget(s, cfg).activeStatusId.None?
  {
    hide Evict;
    NothingIsRemembered(s.(messages := TruncateAll(s.messages, cfg.maxFieldBytes)), cfg);
  }

  lemma ReducedRemembersNothing(u: State, e: Event, cfg: Config)
    requires Inv(u)
    requires e.TurnStarted? || e.TurnCompleted? || e.TurnCancelled? || e.TurnFailed?
    ensures Reduce(u, e, cfg).streamingId.None? && Reduce(u, e, cfg).activeStatusId.None?
  {
    hide Finished, WithoutId, Splice, Stamp, Position, HasTag;
    SettledKeeps(u, cfg);
  }

  /**
   After a turn's start or end nothing is being written and no status row is active. A
   start leaves all messages to the budget check, a completion those of `Settled`.
   */
  lemma TurnEventsClear(s: State, e: Event, cfg: Config)
    requires Inv(s) && !Repeats(EnterTurn(s, e.turnId), e, cfg)
    requires e.TurnStarted? || e.TurnCompleted? || e.TurnCancelled? || e.TurnFailed?
    ensures Apply(s, e, cfg).streamingId.None? && Apply(s, e, cfg).activeStatusId.None?
    ensures e.TurnStarted? ==>
              LeftOf(s.(streamingId := None, activeStatusId := None), Apply(s, e, cfg), cfg)
    ensures e.TurnCompleted? ==> LeftOf(Settled(s, e, cfg), Apply(s, e, cfg), cfg)
  {
    hide Inv, LeftOf, EnforceBudget, CloseSegment, FinishStatus, Recorded, Repeats, Push;
    var u := Recorded(EnterTurn(s, e.turnId), e, cfg);
    AppliedIs(s, e, NoKey, cfg);
    ReducedRemembersNothing(u, e, cfg);
    CheckRemembersNothing(Reduce(u, e, cfg), cfg);
    if e.TurnStarted? {
      RecordedIs(EnterTurn(s, e.turnId), e, cfg);
      CheckLeaves(Reduce(u, e, cfg), s.(streamingId := None, activeStatusId := None), cfg);
    } else if e.TurnCompleted? {
      SettledAlike(s, e, cfg);
      CheckLeaves(Reduce(u, e, cfg), Settled(s, e, cfg), cfg);
    }
  }

  /** A connection that failed lets go of the segment and shows the error, unless its turn had ended. */
  lemma FailurePuts(s: State, e: Event, text: string, cfg: Config) returns (u: State)
    requires Inv(s) && !Repeats(s, e, cfg)
    ensures PutsRow(FinishStatus(s).messages, u.messages, s.acpStatusId, Failing(text),
                    Message(s.nextId, None, SystemRole, text, "", Text, false))
    ensures u.deferred == s.deferred && u.streamingId.None? && u.activeStatusId.None? && u.acpStatusId.None?
    ensures LeftOf(u, FailAcp(s, e, text, cfg), cfg)
  {
    hide Inv, LeftOf, SetAcpError, Recorded, Repeats, PutsRow, WithoutId;
    var v := Recorded(s, e, cfg);
    RecordedRows(s, e, cfg);
    SameRowsKeep(s, v);
    RecordedIs(s, e, cfg);
    UnstreamedKeeps(v);
    u := ErrorPuts(v.(streamingId := None), text, cfg);
  }

  /** Clearing leaves an empty transcript; only the deferral and the ids go on. */
  lemma ClearedIsEmpty(s: State)
    ensures Cleared(s) == EMPTY.(deferred := s.deferred, nextId := s.nextId)
  {
  }

  // ----- what goes with a tool card -----

  /** Removing one message removes at most one card of a call, and then the call's cached input. */
  lemma RemovalAndInputs(s: State, v: nat, callId: string, cfg: Config)
    requires v < |s.messages|
    ensures var t, key := RemoveMessage(s, v), ToolKey(callId);
            && |t.messages| == |s.messages| - 1
            && (IsCard(s.messages[v], key) ==> callId !in t.toolInputs)
            && (!IsCard(s.messages[v], key) ==> (callId in t.toolInputs <==> callId in s.toolInputs))
            && (callId in t.toolInputs ==> callId in s.toolInputs && t.toolInputs[callId] == s.toolInputs[callId])
            && |RowsOf(t, key, cfg)| == |RowsOf(s, key, cfg)| - (if IsCard(s.messages[v], key) then 1 else 0)
  {
    hide Shown, WithoutKey;
    var ms, key := s.messages, ToolKey(callId);
    assert ms == ms[v := ms[v]];
    RowsAround(ms, v, ms[v], key, cfg);
    assert [ms[v]][1..] == [];
    RowsConcat(ms[..v], ms[v + 1..], key, cfg);
  }

  lemma {:induction false} CachedWhileAllStay(s: State, callId: string, cfg: Config)
    ensures var t, key := Evict(s, cfg), ToolKey(callId);
            && |RowsOf(t, key, cfg)| <= |RowsOf(s, key, cfg)|
            && (callId in t.toolInputs <==>
                callId in s.toolInputs && |RowsOf(t, key, cfg)| == |RowsOf(s, key, cfg)|)
            && (callId in t.toolInputs ==> t.toolInputs[callId] == s.toolInputs[callId])
    decreases |s.messages|
  {
    hide RowsOf, OverBudget, Victim, RemoveMessage, IsCard;
    if s.messages != [] && OverBudget(s.messages, cfg) {
      RemovalAndInputs(s, Victim(s), callId, cfg);
      CachedWhileAllStay(RemoveMessage(s, Victim(s)), callId, cfg);
    }
  }

  /** An input stays cached through a budget check if and only if no card of its call has to go. */
  lemma InputStaysIff(s: State, callId: string, cfg: Config)
    requires Inv(s)
    ensures var rows, t := RowsOf(s, ToolKey(callId), cfg), EnforceBudget(s, cfg);
            && (callId in t.toolInputs <==>
                callId in s.toolInputs && forall i :: 0 <= i < |rows| ==> rows[i].id !in Leaving(s, cfg))
            && (callId in t.toolInputs ==> t.toolInputs[callId] == s.toolInputs[callId])
  {
    hide Rows, Inv, Evict, Leaving;
    var key := ToolKey(callId);
    CheckedRows(s, key, cfg);
    ExceptCounts(RowsOf(s, key, cfg), Leaving(s, cfg));
    TruncatedRows(s.messages, key, cfg);
    CachedWhileAllStay(s.(messages := TruncateAll(s.messages, cfg.maxFieldBytes)), callId, cfg);
    if s.deferred {
      NobodyLeaves(s, cfg);
    }
  }

  /**
   A started call's input is cached if and only if it is not oversized and no card of
   the call has to go with its start.
   */
  lemma StartCaches(s: State, e: Event, cfg: Config)
    requires Inv(s) && MemoryOk(s) && e.ToolCallStarted?
    ensures var before := Settled(s, e, cfg);
            var u := With(before, CardRow(before.nextId, Some(e.turnId), StartedCard(e, cfg)));
            var rows, t := RowsOf(u, ToolKey(e.callId), cfg), Apply(s, e, cfg);
            && (e.callId in t.toolInputs <==>
                && e.arguments.bytes <= MAX_CACHED_TOOL_INPUT_BYTES
                && forall i :: 0 <= i < |rows| ==> rows[i].id !in Leaving(u, cfg))
            && (e.callId in t.toolInputs ==> t.toolInputs[e.callId] == e.arguments)
  {
    hide Inv, EnforceBudget, CloseSegment, FinishStatus, EnterTurn, CacheToolInput, StartedCard, Leaving, Rows,
         MemoryOk, Reduce;
    var s1, card := EnterTurn(s, e.turnId), StartedCard(e, cfg);
    var v := CloseSegment(FinishStatus(s1), cfg);
    var c := CacheToolInput(v, e.callId, e.arguments);
    StartAlike(s, e, cfg);
    EnteredKeeps(s, e.turnId);
    EnteredMemory(s, e.turnId);
    SettledKeeps(s1, cfg);
    CloseSameMemory(s1, cfg);
    MemoryIsSame(s1, v);
    CacheInputOk(v, e.callId, e.arguments);
    CacheRows(v, e.callId, e.arguments);
    SameRowsKeep(v, c);
    PushKeeps(c, CardMessage(card));
    AppliedIs(s, e, NoKey, cfg);
    var p, u := Push(c, CardMessage(card)), With(v, CardRow(v.nextId, Some(e.turnId), card));
    assert Apply(s, e, cfg) == EnforceBudget(p, cfg) && p.messages == u.messages;
    InputStaysIff(p, e.callId, cfg);
    SameLeaving(p, u, cfg);
    assert v == Settled(s, e, cfg) && RowsOf(p, ToolKey(e.callId), cfg) == RowsOf(u, ToolKey(e.callId), cfg);
  }

  lemma MemoryIsSame(s: State, t: State)
    requires MemoryOk(s) && SameMemory(s, t)
    ensures MemoryOk(t)
  {
  }
}
