/**
 The panel of active subagents: never more than 64, each id once, and a running
 subagent gives way only when no finished one is left to go.
 */
module TranscriptSubagents {
  import opened Basics
  import opened BoundedText
  import opened FencedBlocks
  import opened TranscriptState
  import opened TranscriptInvariant
  import opened TranscriptStream
  import opened TranscriptCards

  ghost predicate PanelOk(active: seq<SubAgentData>) {
    && |active| <= MAX_ACTIVE_SUBAGENTS
    && forall i, j :: 0 <= i < j < |active| ==> active[i].subagentId != active[j].subagentId
  }

  function Without(active: seq<SubAgentData>, k: nat): seq<SubAgentData>
    requires k < |active|
  {
    active[..k] + active[k + 1..]
  }

  /** Number k goes: the first finished one, or the first of all when all are running. */
  ghost predicate GivesWay(active: seq<SubAgentData>, k: nat) {
    && k < |active| && (forall i :: 0 <= i < k ==> active[i].running)
    && (active[k].running ==> k == 0 && forall i :: 0 <= i < |active| ==> active[i].running)
  }

  lemma {:induction false} FirstFinishedIs(active: seq<SubAgentData>)
    ensures var i := FirstFinished(active);
            && (forall k :: 0 <= k < i ==> active[k].running)
            && (i < |active| ==> !active[i].running)
  {
    if active != [] && active[0].running {
      FirstFinishedIs(active[1..]);
    }
  }

  lemma OneTooMany(active: seq<SubAgentData>) returns (k: nat)
    requires |active| == MAX_ACTIVE_SUBAGENTS + 1
    ensures GivesWay(active, k) && TrimSubagents(active) == Without(active, k)
  {
    FirstFinishedIs(active);
    var i := FirstFinished(active);
    k := if i < |active| then i else 0;
    assert |Without(active, k)| == MAX_ACTIVE_SUBAGENTS;
  }

  lemma {:induction false} FindsId(active: seq<SubAgentData>, id: string)
    ensures var i := FindSubagent(active, id);
            && (i.Some? ==> active[i.value].subagentId == id)
            && (i.None? ==> forall k :: 0 <= k < |active| ==> active[k].subagentId != id)
  {
    if active != [] {
      FindsId(active[1..], id);
    }
  }

  /** The panel after `d` came, when it had room or knew the id. */
  function WithEntry(active: seq<SubAgentData>, d: SubAgentData): seq<SubAgentData> {
    var i := FindSubagent(active, d.subagentId);
    if i.Some? then active[i.value := d] else active + [d]
  }

  lemma WithEntryOk(active: seq<SubAgentData>, d: SubAgentData)
    requires PanelOk(active)
    ensures var all := WithEntry(active, d);
            && (forall i, j :: 0 <= i < j < |all| ==> all[i].subagentId != all[j].subagentId)
            && |all| <= MAX_ACTIVE_SUBAGENTS + 1 && d in all
            && (|all| == |active| + 1 || |all| == |active|)
  {
    FindsId(active, d.subagentId);
    var i := FindSubagent(active, d.subagentId);
    if i.Some? {
      assert active[i.value := d][i.value] == d;
    } else {
      assert (active + [d])[|active|] == d;
    }
  }

  lemma WithoutOk(all: seq<SubAgentData>, k: nat)
    requires |all| == MAX_ACTIVE_SUBAGENTS + 1 && k < |all|
    requires forall i, j :: 0 <= i < j < |all| ==> all[i].subagentId != all[j].subagentId
    ensures PanelOk(Without(all, k))
  {
    var rest := Without(all, k);
    assert forall i :: 0 <= i < |rest| ==> rest[i] == all[if i < k then i else i + 1];
  }

  /**
   A subagent's data replaces the entry of its id in place or joins at the end; then,
   if that makes 65 entries, exactly one goes: the first finished one, and a running
   one, the oldest, only when all 65 are running. Nothing else of the state changes.
   */
  lemma UpsertGivesWay(s: State, data: SubAgentData, cfg: Config) returns (k: nat)
    requires PanelOk(s.activeSubagents)
    ensures var all := WithEntry(s.activeSubagents, BoundSubagent(data, CardLimit(cfg)));
            var t := UpsertSubagent(s, data, cfg);
            && PanelOk(t.activeSubagents) && t == s.(activeSubagents := t.activeSubagents)
            && (|all| <= MAX_ACTIVE_SUBAGENTS ==> t.activeSubagents == all)
            && (|all| > MAX_ACTIVE_SUBAGENTS ==> GivesWay(all, k) && t.activeSubagents == Without(all, k))
  {
    hide BoundSubagent, GivesWay;
    var d := BoundSubagent(data, CardLimit(cfg));
    var all := WithEntry(s.activeSubagents, d);
    WithEntryOk(s.activeSubagents, d);
    k := 0;
    if |all| > MAX_ACTIVE_SUBAGENTS {
      k := OneTooMany(all);
      WithoutOk(all, k);
    }
  }

  lemma UpsertPanel(s: State, data: SubAgentData, cfg: Config)
    requires PanelOk(s.activeSubagents)
    ensures PanelOk(UpsertSubagent(s, data, cfg).activeSubagents)
  {
    var k := UpsertGivesWay(s, data, cfg);
  }

  // ----- a subagent's end -----

  /** The data of a subagent that ended: the outcome, its name and task, and a new summary only if there is one. */
  ghost predicate Ended(d: SubAgentData, next: SubAgentData, success: bool, summary: string) {
    && next.subagentId == d.subagentId && next.name == d.name && next.task == d.task
    && !next.running && next.success == Some(success)
    && next.summary == if summary == "" then d.summary else summary
  }

  lemma ReplacedSubagent(s: State, next: SubAgentData)
    ensures var i, t := FindCard(s.messages, SubAgentKey(next.subagentId)),
                        ReplaceCard(s, SubAgentKey(next.subagentId), SubAgentCard(next));
            && t.activeSubagents == s.activeSubagents
            && (i.None? ==> t.messages == s.messages)
            && (i.Some? ==> OnlyAt(s.messages, t.messages, i.value)
                            && t.messages[i.value].variant == CardOf(SubAgentCard(next)))
  {
    var i := FindCard(s.messages, SubAgentKey(next.subagentId));
    if i.Some? {
      ReplacedCard(s, SubAgentKey(next.subagentId), SubAgentCard(next));
    }
  }

  /**
   A known subagent's end shows on its last card, if that is still there, and on no
   other message; in the panel it replaces the entry of its id in place.
   */
  lemma SubagentEnds(s: State, id: string, success: bool, summary: string, cfg: Config) returns (next: SubAgentData)
    requires LookupSubagent(s, id).Some? && PanelOk(s.activeSubagents)
    ensures var i, k, t := FindCard(s.messages, SubAgentKey(id)), FindSubagent(s.activeSubagents, id),
                           FinishSubagent(s, id, success, summary, cfg);
            && Ended(LookupSubagent(s, id).value, next, success, summary)
            && (i.None? ==> t.messages == s.messages)
            && (i.Some? ==> OnlyAt(s.messages, t.messages, i.value)
                            && t.messages[i.value].variant == CardOf(SubAgentCard(next)))
            && (k.Some? ==> t.activeSubagents == s.activeSubagents[k.value := BoundSubagent(next, CardLimit(cfg))])
            && PanelOk(t.activeSubagents)
  {
    hide OnlyAt, GivesWay, TruncateToRecent, ReplaceCard;
    LookupHasId(s, id);
    var d := LookupSubagent(s, id).value;
    next := d.(running := false, success := Some(success), summary := if summary != "" then summary else d.summary);
    var k := UpsertGivesWay(s, next, cfg);
    ReplacedSubagent(UpsertSubagent(s, next, cfg), next);
  }

  /** The data a subagent is known by: that of its last card, or else that of the panel. */
  ghost predicate KnownAs(s: State, id: string, d: SubAgentData) {
    if exists i: nat :: LastCardAt(s.messages, SubAgentKey(id), i) then
      forall i: nat :: LastCardAt(s.messages, SubAgentKey(id), i) ==> s.messages[i].variant == CardOf(SubAgentCard(d))
    else d in s.activeSubagents && d.subagentId == id
  }

  /** A subagent is known exactly when it has a card or is in the panel. */
  lemma KnownIff(s: State, id: string)
    ensures LookupSubagent(s, id).Some? <==>
            || (exists i: nat :: LastCardAt(s.messages, SubAgentKey(id), i))
            || (exists k :: 0 <= k < |s.activeSubagents| && s.activeSubagents[k].subagentId == id)
    ensures LookupSubagent(s, id).Some? ==> KnownAs(s, id, LookupSubagent(s, id).value)
  {
    hide LastCardAt;
    FoundIsLast(s.messages, SubAgentKey(id));
    FindsId(s.activeSubagents, id);
    forall i: nat | LastCardAt(s.messages, SubAgentKey(id), i)
      ensures FindCard(s.messages, SubAgentKey(id)) == Some(i)
    {
      LastIsFound(s.messages, SubAgentKey(id), i);
    }
  }

  /**
   A known subagent's news shows on its last card, if that is still there, and on no
   other message, and in its panel entry; only the summary changes.
   */
  lemma SubagentTells(s: State, id: string, summary: string, cfg: Config) returns (next: SubAgentData)
    requires LookupSubagent(s, id).Some? && PanelOk(s.activeSubagents)
    ensures var i, k, t := FindCard(s.messages, SubAgentKey(id)), FindSubagent(s.activeSubagents, id),
                           UpdateSubagent(s, id, summary, cfg);
            && next == LookupSubagent(s, id).value.(summary := summary)
            && (i.None? ==> t.messages == s.messages)
            && (i.Some? ==> OnlyAt(s.messages, t.messages, i.value)
                            && t.messages[i.value].variant == CardOf(SubAgentCard(next)))
            && (k.Some? ==> t.activeSubagents == s.activeSubagents[k.value := BoundSubagent(next, CardLimit(cfg))])
            && PanelOk(t.activeSubagents)
  {
    hide OnlyAt, GivesWay, TruncateToRecent, ReplaceCard;
    LookupHasId(s, id);
    next := LookupSubagent(s, id).value.(summary := summary);
    var k := UpsertGivesWay(s, next, cfg);
    ReplacedSubagent(UpsertSubagent(s, next, cfg), next);
  }

  // ----- every run -----

  lemma {:induction false} EvictPanel(s: State, cfg: Config)
    ensures Evict(s, cfg).activeSubagents == s.activeSubagents
    decreases |s.messages|
  {
    hide OverBudget, Victim;
    if s.messages != [] && OverBudget(s.messages, cfg) {
      EvictPanel(RemoveMessage(s, Victim(s)), cfg);
    }
  }

  lemma EnforcePanel(s: State, cfg: Config)
    ensures EnforceBudget(s, cfg).activeSubagents == s.activeSubagents
  {
    EvictPanel(s.(messages := TruncateAll(s.messages, cfg.maxFieldBytes)), cfg);
  }

  lemma {:induction false} TrimTerminalsPanel(s: State)
    ensures TrimTerminals(s).activeSubagents == s.activeSubagents
    decreases |s.terminalOrder|
  {
    if |s.terminalOrder| > MAX_TERMINAL_EVENTS {
      TrimTerminalsPanel(s.(terminalEvents := s.terminalEvents - {s.terminalOrder[0]},
                            terminalOrder := s.terminalOrder[1..]));
    }
  }

  lemma RecordedPanel(s: State, e: Event, cfg: Config)
    ensures Recorded(s, e, cfg).activeSubagents == s.activeSubagents
  {
    var key := TerminalKeyOf(e, cfg);
    if key.Some? && key.value !in s.terminalEvents {
      TrimTerminalsPanel(s.(terminalEvents := s.terminalEvents + {key.value},
                            terminalOrder := s.terminalOrder + [key.value]));
    }
  }

  lemma {:induction false} TrimInputsPanel(s: State)
    ensures TrimToolInputs(s).activeSubagents == s.activeSubagents
    decreases |s.toolInputOrder|
  {
    if |s.toolInputOrder| > MAX_CACHED_TOOL_INPUTS {
      TrimInputsPanel(s.(toolInputs := s.toolInputs - {s.toolInputOrder[0]},
                         toolInputOrder := s.toolInputOrder[1..]));
    }
  }

  lemma CachePanel(s: State, callId: string, arguments: Arguments)
    ensures CacheToolInput(s, callId, arguments).activeSubagents == s.activeSubagents
  {
    var s1 := RemoveToolInput(s, callId);
    TrimInputsPanel(s1.(toolInputs := s1.toolInputs[callId := arguments],
                        toolInputOrder := s1.toolInputOrder + [callId]));
  }

  lemma SettledPanel(s: State, cfg: Config)
    ensures CloseSegment(FinishStatus(s), cfg).activeSubagents == s.activeSubagents
  {
    hide Finished, WithoutId;
  }

  lemma DeltaPanel(s: State, e: Event, cfg: Config)
    requires IsDelta(e) || e.AssistantMessage?
    ensures Reduce(s, e, cfg).activeSubagents == s.activeSubagents
  {
    hide Finished, WithoutId, AppendBounded, SegmentHasText, PositionOf, Splice, Stamp, WithText, WithReasoning;
  }

  lemma SpeechPanel(s: State, e: Event, cfg: Config)
    requires IsDelta(e) || e.AssistantMessage? || e.TurnStarted? || e.TurnCompleted? || e.TurnCancelled?
             || e.TurnFailed? || e.StatusChanged? || e.PlanUpdated?
    ensures Reduce(s, e, cfg).activeSubagents == s.activeSubagents
  {
    hide Finished, WithoutId, AppendDelta, AppendReasoning, FinalizeAssistant, Position;
    if IsDelta(e) || e.AssistantMessage? {
      DeltaPanel(s, e, cfg);
    }
  }

  lemma ToolPanel(s: State, e: Event, cfg: Config)
    requires e.ToolCallStarted? || e.ObservationAdded? || e.ToolCallFinished?
    ensures Reduce(s, e, cfg).activeSubagents == s.activeSubagents
  {
    hide Observed, BoundTool, CloseSegment, FinishStatus, CacheToolInput;
    if e.ToolCallStarted? {
      SettledPanel(s, cfg);
      CachePanel(CloseSegment(FinishStatus(s), cfg), e.callId, e.arguments);
    }
  }

  lemma ConfirmPanel(s: State, e: Event, cfg: Config)
    requires e.NeedUserInput?
    ensures Reduce(s, e, cfg).activeSubagents == s.activeSubagents
  {
    hide EnforceBudget, BoundConfirm, ConfirmInput, WithoutId;
    var s1 := FinishStatus(s);
    var input := ConfirmInput(s1, e.pendingCallId, e.requestedArguments);
    var d := ConfirmData(if e.pendingCallId.Some? then e.pendingCallId.value else "",
                         if e.requestedTool.Some? then e.requestedTool.value else "unknown",
                         e.pendingCalls, input.0, input.1, e.question, Pending);
    EnforcePanel(Push(s1, CardMessage(ConfirmCard(BoundConfirm(d, CardLimit(cfg))))), cfg);
  }

  lemma ResolvePanel(s: State, callId: string, approved: bool, cfg: Config)
    ensures ResolveConfirm(s, callId, approved, cfg).activeSubagents == s.activeSubagents
  {
    hide EnforceBudget;
    var i := FindCard(s.messages, ConfirmKey(callId));
    if i.Some? {
      var d := s.messages[i.value].variant.card.confirm.(status := if approved then Approved else Rejected);
      EnforcePanel(ReplaceCard(s, ConfirmKey(callId), ConfirmCard(d)), cfg);
    }
  }

  lemma BudgetPanel(s: State, e: Event, cfg: Config)
    requires e.UserMessage? || e.NeedUserInput? || e.ToolApprovalResolved?
    ensures Reduce(s, e, cfg).activeSubagents == s.activeSubagents
  {
    hide EnforceBudget, PushConfirm, ResolveConfirm;
    match e {
      case UserMessage(_, text) => EnforcePanel(Push(s, NewMessage(UserRole, cfg.userText(text), Text, false)), cfg);
      case NeedUserInput(_, _, _, _, _, _) => ConfirmPanel(s, e, cfg);
      case ToolApprovalResolved(_, callId, approved) => ResolvePanel(s, callId, approved, cfg);
    }
  }

  lemma StartedPanel(s: State, id: string, name: string, task: string, cfg: Config)
    requires PanelOk(s.activeSubagents)
    ensures PanelOk(PushSubagent(s, id, name, task, cfg).activeSubagents)
  {
    hide UpsertSubagent, BoundSubagent, CloseSegment, FinishStatus, PanelOk;
    SettledPanel(s, cfg);
    var d := BoundSubagent(SubAgentData(id, name, task, true, None, ""), CardLimit(cfg));
    UpsertPanel(CloseSegment(FinishStatus(s), cfg), d, cfg);
  }

  lemma ChangedPanel(s: State, e: Event, cfg: Config)
    requires PanelOk(s.activeSubagents) && (e.SubAgentUpdated? || e.SubAgentFinished?)
    ensures PanelOk(Reduce(s, e, cfg).activeSubagents)
  {
    hide UpsertSubagent, LookupSubagent, PanelOk;
    var d := LookupSubagent(s, e.subagentId);
    if d.Some? {
      var next := if e.SubAgentUpdated? then d.value.(summary := e.summary)
                  else d.value.(running := false, success := Some(e.success),
                                summary := if e.summary != "" then e.summary else d.value.summary);
      UpsertPanel(s, next, cfg);
    }
  }

  lemma ReducePanel(s: State, e: Event, cfg: Config)
    requires PanelOk(s.activeSubagents)
    ensures PanelOk(Reduce(s, e, cfg).activeSubagents)
  {
    hide Reduce, PanelOk;
    if e.SubAgentStarted? {
      assert PanelOk(Reduce(s, e, cfg).activeSubagents) by { StartReduces(s, e, cfg); }
    } else if e.SubAgentUpdated? || e.SubAgentFinished? {
      ChangedPanel(s, e, cfg);
    } else if e.ToolCallStarted? || e.ObservationAdded? || e.ToolCallFinished? {
      ToolPanel(s, e, cfg);
    } else if e.UserMessage? || e.NeedUserInput? || e.ToolApprovalResolved? {
      BudgetPanel(s, e, cfg);
    } else {
      SpeechPanel(s, e, cfg);
    }
  }

  lemma StartReduces(s: State, e: Event, cfg: Config)
    requires PanelOk(s.activeSubagents) && e.SubAgentStarted?
    ensures PanelOk(Reduce(s, e, cfg).activeSubagents)
  {
    hide PushSubagent, PanelOk;
    StartedPanel(s, e.subagentId, e.name, e.task, cfg);
  }

  lemma ApplyPanel(s: State, e: Event, cfg: Config)
    requires PanelOk(s.activeSubagents)
    ensures PanelOk(Apply(s, e, cfg).activeSubagents)
  {
    hide Reduce, Recorded, EnforceBudget, PanelOk, Repeats;
    var s1 := EnterTurn(s, e.turnId);
    if !Repeats(s1, e, cfg) {
      RecordedPanel(s1, e, cfg);
      ReducePanel(Recorded(s1, e, cfg), e, cfg);
      EnforcePanel(Reduce(Recorded(s1, e, cfg), e, cfg), cfg);
    }
  }

  lemma ApprovalPanel(s: State, d: ConfirmData, cfg: Config)
    ensures PushMcpApproval(s, d, cfg).activeSubagents == s.activeSubagents
  {
    hide EnforceBudget, CloseSegment, FinishStatus, ApprovalCard, HasPendingConfirm;
    var s0 := s.(publicMcpIds := s.publicMcpIds + {d.callId});
    SettledPanel(s0, cfg);
    EnforcePanel(Push(CloseSegment(FinishStatus(s0), cfg), CardMessage(ApprovalCard(d, cfg))), cfg);
  }

  lemma AskedPanel(s: State, d: PermissionData, cfg: Config)
    ensures PushPermission(s, d, cfg).activeSubagents == s.activeSubagents
  {
    hide EnforceBudget, CloseSegment, FinishStatus, RequestCard, HasPendingPermission;
    SettledPanel(s, cfg);
    EnforcePanel(Push(CloseSegment(FinishStatus(s), cfg), CardMessage(RequestCard(d, cfg))), cfg);
  }

  lemma RequestPanel(s: State, a: Action, cfg: Config)
    requires a.ApproveMcp? || a.AskPermission? || a.AnswerPermission? || a.WithdrawPermission?
    ensures Act(s, a, cfg).activeSubagents == s.activeSubagents
  {
    hide EnforceBudget, PushMcpApproval, PushPermission, DecidePermission, Apply, SetAcpStatus, SetAcpError, FailAcp,
         ClearAcpStatus, Push;
    match a {
      case ApproveMcp(d) => ApprovalPanel(s, d, cfg);
      case AskPermission(d) => AskedPanel(s, d, cfg);
      case AnswerPermission(id, option) =>
        DecidePanel(s, id, if "reject" <= option.kind then Rejected else Approved, option.name, cfg);
      case WithdrawPermission(id) => DecidePanel(s, id, Cancelled, "", cfg);
    }
  }

  lemma DecidePanel(s: State, requestId: string, status: Decision, name: string, cfg: Config)
    ensures DecidePermission(s, requestId, status, name, cfg).activeSubagents == s.activeSubagents
  {
    hide EnforceBudget;
    var i := FindFirstCard(s.messages, PermissionKey(requestId));
    if i.Some? {
      var d := s.messages[i.value].variant.card.permission.(status := status, selectedOptionName := name);
      EnforcePanel(ReplaceFirstCard(s, PermissionKey(requestId), PermissionCard(d)), cfg);
    }
  }

  lemma ErrorPanel(s: State, text: string, cfg: Config)
    ensures SetAcpError(s, text, cfg).activeSubagents == s.activeSubagents
  {
    hide EnforceBudget, WithoutId;
    EnforcePanel(WithAcpError(FinishStatus(s), text), cfg);
  }

  lemma RowPanel(s: State, a: Action, cfg: Config)
    requires a.PushSystem? || a.PushUser? || a.PushCompaction? || a.AcpStatus? || a.AcpError? || a.AcpFailure?
             || a.AcpStatusOver? || a.Defer? || a.Flush?
    ensures Act(s, a, cfg).activeSubagents == s.activeSubagents
  {
    hide EnforceBudget, Apply, PushMcpApproval, PushPermission, DecidePermission, SetAcpError, Recorded, WithoutId;
    match a {
      case PushSystem(text) => EnforcePanel(Push(s, SystemMessage(text)), cfg);
      case PushUser(text) => EnforcePanel(Push(s, NewMessage(UserRole, text, Text, false)), cfg);
      case PushCompaction(text, n) => EnforcePanel(Push(s, CardMessage(CompactionCard(n, text))), cfg);
      case AcpStatus(title) => EnforcePanel(WithAcpStatus(s, title), cfg);
      case AcpError(text) => ErrorPanel(s, text, cfg);
      case AcpFailure(e, text) =>
        RecordedPanel(s, e, cfg);
        ErrorPanel(Recorded(s, e, cfg).(streamingId := None), text, cfg);
      case Flush => EnforcePanel(s.(deferred := false), cfg);
      case _ =>
    }
  }

  /** After every run of actions the panel holds at most 64 subagents, each id once. */
  lemma {:induction false} PanelStaysBounded(actions: seq<Action>, cfg: Config)
    ensures PanelOk(Run(actions, cfg).activeSubagents)
  {
    hide Act, Apply, PanelOk;
    if actions == [] {
      EmptyPanel();
    } else {
      var s, a := Run(actions[..|actions| - 1], cfg), actions[|actions| - 1];
      PanelStaysBounded(actions[..|actions| - 1], cfg);
      ActPanel(s, a, cfg);
    }
  }

  lemma EmptyPanel()
    ensures PanelOk([])
  {
  }

  lemma ActPanel(s: State, a: Action, cfg: Config)
    requires PanelOk(s.activeSubagents)
    ensures PanelOk(Act(s, a, cfg).activeSubagents)
  {
    hide Act, Apply, PanelOk;
    if a.ApplyEvent? {
      ApplyPanel(s, a.event, cfg);
      assert Act(s, a, cfg) == Apply(s, a.event, cfg) by { EventActs(s, a, cfg); }
    } else if a.Clear? {
      EmptyPanel();
      assert Act(s, a, cfg).activeSubagents == [] by { ClearActs(s, a, cfg); }
    } else if a.ApproveMcp? || a.AskPermission? || a.AnswerPermission? || a.WithdrawPermission? {
      RequestPanel(s, a, cfg);
    } else {
      RowPanel(s, a, cfg);
    }
  }

  lemma EventActs(s: State, a: Action, cfg: Config)
    requires a.ApplyEvent?
    ensures Act(s, a, cfg) == Apply(s, a.event, cfg)
  {
    hide Apply;
  }

  lemma ClearActs(s: State, a: Action, cfg: Config)
    requires a.Clear?
    ensures Act(s, a, cfg).activeSubagents == []
  {
    hide Apply;
  }
}
