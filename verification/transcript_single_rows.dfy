/**
 The status row and the plan row over whole runs: later titles and later plans of the
 turn go to the row that is there, with budget checks and other events in between.
 */
module TranscriptSingleRows {
  import opened Basics
  import opened BoundedText
  import opened FencedBlocks
  import opened TranscriptState
  import opened TranscriptInvariant
  import opened TranscriptBudget
  import opened TranscriptStream
  import opened TranscriptSegments
  import opened TranscriptStuck
  import opened TranscriptCards
  import opened TranscriptRows
  import opened TranscriptRequests
  import opened TranscriptLifecycles

  // ----- the status row through a budget check -----

  lemma {:induction false} EvictKeepsStatus(s: State, cfg: Config, x: nat)
    requires Inv(s) && s.activeStatusId == Some(x)
    ensures HasId(Evict(s, cfg).messages, x) ==> Evict(s, cfg).activeStatusId == Some(x)
    decreases |s.messages|
  {
    hide Inv, OverBudget, Victim, HasId;
    if s.messages != [] && OverBudget(s.messages, cfg) {
      var v := Victim(s);
      var t := RemoveMessage(s, v);
      RemoveMessageKeeps(s, v);
      CutIds(s.messages, v, x) by { IdsDiffer(s); }
      if s.messages[v].id == x {
        EvictionDrops(t, cfg, x);
      } else {
        EvictKeepsStatus(t, cfg, x);
      }
    }
  }

  /** Message x, if it is there, is an unfinished status row with that title, within the field limits. */
  ghost predicate RowShows(ms: seq<Message>, x: nat, title: string, cfg: Config) {
    forall i :: 0 <= i < |ms| && ms[i].id == x ==>
      && ms[i].variant.Status? && !ms[i].variant.isDone
      && TruncateToRecent(ms[i].variant.title, cfg.maxFieldBytes) == TruncateToRecent(title, cfg.maxFieldBytes)
  }

  lemma {:induction false} SurvivorsAreOld(ms: seq<Message>, gone: set<nat>)
    ensures forall m :: m in Survivors(ms, gone) ==> m in ms
  {
    if ms != [] {
      SurvivorsAreOld(ms[1..], gone);
    }
  }

  lemma BoundedShows(s: State, x: nat, title: string, cfg: Config)
    requires RowShows(s.messages, x, title, cfg)
    ensures RowShows(Bounded(s, cfg).messages, x, title, cfg)
  {
    hide TruncateToRecent, BoundCard;
    if !s.deferred {
      var ms := s.messages;
      forall i | 0 <= i < |ms| && ms[i].id == x
        ensures var m := TruncateFields(ms[i], cfg.maxFieldBytes);
                && m.variant.Status? && !m.variant.isDone
                && TruncateToRecent(m.variant.title, cfg.maxFieldBytes) == TruncateToRecent(title, cfg.maxFieldBytes)
      {
        CutAgain(ms[i].variant.title, cfg.maxFieldBytes);
      }
    }
  }

  /** The row of message x is the active one as long as it is there. */
  ghost predicate StatusStands(s: State, x: nat, title: string, next: nat, cfg: Config) {
    && x < s.nextId && RowShows(s.messages, x, title, cfg)
    && (HasId(s.messages, x) ==> s.activeStatusId == Some(x) && s.nextId == next)
  }

  lemma FewerShow(ms: seq<Message>, after: seq<Message>, x: nat, title: string, cfg: Config)
    requires RowShows(ms, x, title, cfg) && forall m :: m in after ==> m in ms
    ensures RowShows(after, x, title, cfg)
  {
    forall i | 0 <= i < |after| && after[i].id == x
      ensures && after[i].variant.Status? && !after[i].variant.isDone
              && TruncateToRecent(after[i].variant.title, cfg.maxFieldBytes) ==
                 TruncateToRecent(title, cfg.maxFieldBytes)
    {
      assert after[i] in ms;
    }
  }

  lemma StatusThroughCheck(s: State, x: nat, title: string, next: nat, cfg: Config)
    requires Inv(s) && StatusStands(s, x, title, next, cfg)
    ensures StatusStands(EnforceBudget(s, cfg), x, title, next, cfg)
  {
    hide Inv, HasId, Survivors, Leaving, Bounded, TruncateToRecent, Evict;
    var t := EnforceBudget(s, cfg);
    CheckedNext(s, cfg);
    CheckIsForeseen(s, cfg);
    BoundedShows(s, x, title, cfg);
    SurvivorsAreOld(Bounded(s, cfg).messages, Leaving(s, cfg));
    FewerShow(Bounded(s, cfg).messages, t.messages, x, title, cfg);
    BudgetDrops(s, cfg, x);
    if HasId(t.messages, x) && !s.deferred {
      var u := s.(messages := TruncateAll(s.messages, cfg.maxFieldBytes));
      TruncateAllKeeps(s, cfg.maxFieldBytes);
      EvictKeepsStatus(u, cfg, x);
    }
  }

  /** A title that is not the last goes to the active row, or to a new one. */
  lemma TitleStands(s: State, title: string, cfg: Config) returns (x: nat)
    requires Inv(s)
    ensures var t := UpsertStatus(s, title, false);
            && StatusStands(t, x, title, t.nextId, cfg) && t.nextId >= s.nextId
            && (if s.activeStatusId.Some? then s.activeStatusId == Some(x) && t.nextId == s.nextId
                else x == s.nextId)
            && (forall y :: HasId(t.messages, y) ==> HasId(s.messages, y) || y == s.nextId)
  {
    hide TruncateToRecent, HasTag;
    var t, i := UpsertStatus(s, title, false), PositionOf(s.messages, s.activeStatusId);
    if i.Some? {
      x := s.activeStatusId.value;
      assert forall j :: 0 <= j < |s.messages| ==> t.messages[j].id == s.messages[j].id;
      assert forall j :: 0 <= j < |s.messages| && j != i.value ==> s.messages[j].id != x;
    } else {
      StatusIsGone(s);
      x := s.nextId;
    }
  }

  /** One more status change through its whole event. */
  lemma TitleApplied(s: State, e: Event, x: nat, title: string, next: nat, cfg: Config)
    requires Inv(s) && StatusStands(s, x, title, next, cfg) && e.StatusChanged? && !e.isDone
    ensures Inv(Apply(s, e, cfg)) && StatusStands(Apply(s, e, cfg), x, e.title, next, cfg)
  {
    hide Inv, HasId, EnforceBudget, TruncateToRecent, RowShows, UpsertStatus;
    var s1 := EnterTurn(s, e.turnId);
    EnteredKeeps(s, e.turnId);
    var y := TitleStands(s1, e.title, cfg);
    var t := UpsertStatus(s1, e.title, false);
    UpsertStatusKeeps(s1, e.title, false);
    EnforceKeeps(t, cfg);
    if !HasId(t.messages, x) {
      NoRowShows(t.messages, x, e.title, cfg);
    }
    StatusThroughCheck(t, x, e.title, next, cfg);
  }

  lemma NoRowShows(ms: seq<Message>, x: nat, title: string, cfg: Config)
    requires !HasId(ms, x)
    ensures RowShows(ms, x, title, cfg)
  {
  }

  predicate Titles(actions: seq<Action>) {
    forall i :: 0 <= i < |actions| ==>
      actions[i].ApplyEvent? && actions[i].event.StatusChanged? && !actions[i].event.isDone
  }

  lemma FirstTitle(s: State, e: Event, cfg: Config) returns (x: nat)
    requires Inv(s) && e.StatusChanged? && !e.isDone
    ensures var t := Apply(s, e, cfg); Inv(t) && StatusStands(t, x, e.title, t.nextId, cfg)
    ensures if s.activeStatusId.Some? then s.activeStatusId == Some(x) else x == s.nextId
  {
    hide Inv, HasId, EnforceBudget, UpsertStatus, StatusStands;
    var s1 := EnterTurn(s, e.turnId);
    EnteredKeeps(s, e.turnId);
    x := TitleStands(s1, e.title, cfg);
    var t := UpsertStatus(s1, e.title, false);
    UpsertStatusKeeps(s1, e.title, false);
    EnforceKeeps(t, cfg);
    CheckedNext(t, cfg);
    StatusThroughCheck(t, x, e.title, t.nextId, cfg);
  }

  /**
   However many status changes come one after another, each with its budget check: as
   long as the row of the first is there, it is the one active row, no other message
   was added, and it shows the last title within the field limits.
   */
  lemma {:induction false} TitlesShareARow(s: State, first: Event, more: seq<Action>, cfg: Config) returns (x: nat)
    requires Inv(s) && first.StatusChanged? && !first.isDone && Titles(more)
    ensures var begun := Apply(s, first, cfg);
            var t := RunFrom(begun, more, cfg);
            && Inv(t) && (if s.activeStatusId.Some? then s.activeStatusId == Some(x) else x == s.nextId)
            && StatusStands(t, x, if more == [] then first.title else more[|more| - 1].event.title, begun.nextId, cfg)
    decreases |more|
  {
    hide Inv, Apply, StatusStands;
    if more == [] {
      x := FirstTitle(s, first, cfg);
    } else {
      var front, e := more[..|more| - 1], more[|more| - 1].event;
      x := TitlesShareARow(s, first, front, cfg);
      var u := RunFrom(Apply(s, first, cfg), front, cfg);
      ActIsApply(u, e, cfg);
      TitleApplied(u, e, x, if front == [] then first.title else front[|front| - 1].event.title,
                   Apply(s, first, cfg).nextId, cfg);
    }
  }

  lemma ActIsApply(s: State, e: Event, cfg: Config)
    ensures Act(s, ApplyEvent(e), cfg) == Apply(s, e, cfg)
  {
    hide Apply;
  }

  // ----- what names the plan row -----

  /** The plan, its row and the turn are the same. */
  ghost predicate SamePlan(s: State, t: State) {
    t.planMessageId == s.planMessageId && t.currentTurn == s.currentTurn && t.latestPlan == s.latestPlan
  }

  lemma {:induction false} EvictPlan(s: State, cfg: Config)
    ensures SamePlan(s, Evict(s, cfg))
    decreases |s.messages|
  {
    hide OverBudget, Victim;
    if s.messages != [] && OverBudget(s.messages, cfg) {
      EvictPlan(RemoveMessage(s, Victim(s)), cfg);
    }
  }

  lemma CheckedPlan(s: State, cfg: Config)
    ensures SamePlan(s, EnforceBudget(s, cfg))
  {
    hide Evict;
    EvictPlan(s.(messages := TruncateAll(s.messages, cfg.maxFieldBytes)), cfg);
  }

  lemma {:induction false} TrimInputsPlan(s: State)
    ensures SamePlan(s, TrimToolInputs(s))
    decreases |s.toolInputOrder|
  {
    if |s.toolInputOrder| > MAX_CACHED_TOOL_INPUTS {
      TrimInputsPlan(s.(toolInputs := s.toolInputs - {s.toolInputOrder[0]}, toolInputOrder := s.toolInputOrder[1..]));
    }
  }

  lemma CachedPlan(s: State, callId: string, arguments: Arguments)
    ensures SamePlan(s, CacheToolInput(s, callId, arguments))
  {
    hide WithoutKey;
    var s1 := RemoveToolInput(s, callId);
    TrimInputsPlan(s1.(toolInputs := s1.toolInputs[callId := arguments],
                       toolInputOrder := s1.toolInputOrder + [callId]));
  }

  lemma {:induction false} TrimTerminalsPlan(s: State)
    ensures SamePlan(s, TrimTerminals(s))
    decreases |s.terminalOrder|
  {
    if |s.terminalOrder| > MAX_TERMINAL_EVENTS {
      TrimTerminalsPlan(s.(terminalEvents := s.terminalEvents - {s.terminalOrder[0]},
                           terminalOrder := s.terminalOrder[1..]));
    }
  }

  lemma RecordedPlan(s: State, e: Event, cfg: Config)
    ensures SamePlan(s, Recorded(s, e, cfg))
  {
    var key := TerminalKeyOf(e, cfg);
    if key.Some? && key.value !in s.terminalEvents {
      TrimTerminalsPlan(s.(terminalEvents := s.terminalEvents + {key.value},
                           terminalOrder := s.terminalOrder + [key.value]));
    }
  }

  lemma SettledPlan(s: State, cfg: Config)
    ensures SamePlan(s, CloseSegment(FinishStatus(s), cfg)) && SamePlan(s, FinishStatus(s))
  {
    hide Finished, WithoutId, Splice, Stamp, Position;
  }

  lemma DeltaPlan(s: State, e: Event, cfg: Config)
    requires e.AssistantMessageDelta? || e.ReasoningDelta? || e.AssistantMessage?
    ensures SamePlan(s, Reduce(s, e, cfg))
  {
    hide SamePlan, AppendDelta, AppendReasoning, FinalizeAssistant, FinishStatus, Push,
         UpsertStatus, UpsertPlan, EnforceBudget, CloseSegment, PushConfirm, PushToolCall, ApplyObservation,
         FinishToolCall, ResolveConfirm, PushSubagent, UpdateSubagent, FinishSubagent;
    if e.AssistantMessage? {
      FinalPlan(s, e.text, e.reasoning, cfg);
    } else {
      SaidPlan(s, e.delta, cfg);
    }
  }

  lemma SaidPlan(s: State, delta: string, cfg: Config)
    ensures SamePlan(s, AppendDelta(s, delta, cfg)) && SamePlan(s, AppendReasoning(s, delta, cfg))
  {
    hide FinishStatus, AppendBounded, SegmentHasText, PositionOf, Stamp, WithText, WithReasoning;
    SettledPlan(s, cfg);
  }

  lemma FinalPlan(s: State, text: string, reasoning: Option<string>, cfg: Config)
    ensures SamePlan(s, FinalizeAssistant(s, text, reasoning, cfg))
  {
    hide Finished, FinishStatus, PositionOf, Splice, Stamp;
    SettledPlan(s, cfg);
  }

  lemma TurnPlan(s: State, e: Event, cfg: Config)
    requires e.TurnStarted? || e.TurnCompleted? || e.TurnCancelled? || e.TurnFailed? || e.StatusChanged?
             || e.UserMessage?
    ensures SamePlan(s, Reduce(s, e, cfg))
  {
    hide FinishStatus, CloseSegment, EnforceBudget, Position, Stamp, AppendDelta, AppendReasoning, FinalizeAssistant,
         UpsertPlan, PushConfirm, PushToolCall, ApplyObservation, FinishToolCall, ResolveConfirm, PushSubagent,
         UpdateSubagent, FinishSubagent;
    SettledPlan(s, cfg);
    if e.UserMessage? {
      CheckedPlan(Push(s, NewMessage(UserRole, cfg.userText(e.text), Text, false)), cfg);
    }
  }

  lemma ToolPlan(s: State, e: Event, cfg: Config)
    requires e.ToolCallStarted? || e.ObservationAdded? || e.ToolCallFinished?
    ensures SamePlan(s, Reduce(s, e, cfg))
  {
    hide Observed, BoundTool, CloseSegment, FinishStatus, CacheToolInput, FindCard, Stamp, WithoutKey, AppendDelta,
         AppendReasoning, FinalizeAssistant, UpsertStatus, UpsertPlan, EnforceBudget, PushConfirm, ResolveConfirm,
         PushSubagent, UpdateSubagent, FinishSubagent;
    if e.ToolCallStarted? {
      SettledPlan(s, cfg);
      CachedPlan(CloseSegment(FinishStatus(s), cfg), e.callId, e.arguments);
    }
  }

  lemma SubagentPlan(s: State, e: Event, cfg: Config)
    requires e.SubAgentStarted? || e.SubAgentUpdated? || e.SubAgentFinished?
    ensures SamePlan(s, Reduce(s, e, cfg))
  {
    hide BoundSubagent, CloseSegment, FinishStatus, TrimSubagents, FindSubagent, FindCard, Stamp, LookupSubagent,
         AppendDelta, AppendReasoning, FinalizeAssistant, UpsertStatus, UpsertPlan, EnforceBudget, PushConfirm,
         ResolveConfirm, PushToolCall, ApplyObservation, FinishToolCall;
    SettledPlan(s, cfg);
  }

  lemma ConfirmPlan(s: State, e: Event, cfg: Config)
    requires e.NeedUserInput? || e.ToolApprovalResolved?
    ensures SamePlan(s, Reduce(s, e, cfg))
  {
    hide EnforceBudget, FinishStatus, ConfirmInput, BoundConfirm, FindCard, ReplaceCard, Stamp, Resolved;
    SettledPlan(s, cfg);
    if e.NeedUserInput? {
      QuestionIs(s, e, cfg);
      CheckedPlan(Push(FinishStatus(s), CardMessage(QuestionCard(s, e, cfg))), cfg);
    } else if FindCard(s.messages, ConfirmKey(e.callId)).Some? {
      ResolveIs(s, e.callId, e.approved, cfg);
      ResolvedPlan(s, e.callId, e.approved);
      CheckedPlan(Resolved(s, e.callId, e.approved), cfg);
    }
  }

  lemma ResolvedPlan(s: State, callId: string, approved: bool)
    requires FindCard(s.messages, ConfirmKey(callId)).Some?
    ensures SamePlan(s, Resolved(s, callId, approved))
  {
    hide FindCard;
  }

  lemma ReducedPlan(s: State, e: Event, cfg: Config)
    requires !e.PlanUpdated?
    ensures SamePlan(s, Reduce(s, e, cfg))
  {
    hide SamePlan, Reduce;
    if e.AssistantMessageDelta? || e.ReasoningDelta? || e.AssistantMessage? {
      DeltaPlan(s, e, cfg);
    } else if e.ToolCallStarted? || e.ObservationAdded? || e.ToolCallFinished? {
      ToolPlan(s, e, cfg);
    } else if e.SubAgentStarted? || e.SubAgentUpdated? || e.SubAgentFinished? {
      SubagentPlan(s, e, cfg);
    } else if e.NeedUserInput? || e.ToolApprovalResolved? {
      ConfirmPlan(s, e, cfg);
    } else {
      TurnPlan(s, e, cfg);
    }
  }

  lemma AppliedPlan(s: State, e: Event, cfg: Config)
    requires !e.PlanUpdated? && s.currentTurn == Some(e.turnId)
    ensures SamePlan(s, Apply(s, e, cfg))
  {
    hide Recorded, Reduce, EnforceBudget, Repeats;
    var s1 := EnterTurn(s, e.turnId);
    RecordedPlan(s1, e, cfg);
    ReducedPlan(Recorded(s1, e, cfg), e, cfg);
    CheckedPlan(Reduce(Recorded(s1, e, cfg), e, cfg), cfg);
  }

  lemma RequestPlan(s: State, a: Action, cfg: Config)
    requires a.ApproveMcp? || a.AskPermission? || a.AnswerPermission? || a.WithdrawPermission?
    ensures SamePlan(s, Act(s, a, cfg))
  {
    hide EnforceBudget, Asked, CloseSegment, FinishStatus, ApprovalCard, RequestCard, Apply, FindFirstCard, FindCard,
         SetAcpStatus, SetAcpError, FailAcp, ClearAcpStatus, Stamp, HasPendingConfirm, HasPendingPermission, Push;
    match a {
      case ApproveMcp(d) =>
        var s0 := s.(publicMcpIds := s.publicMcpIds + {d.callId});
        AskedPlan(s0, ApprovalCard(d, cfg), cfg);
        CheckedPlan(Push(CloseSegment(FinishStatus(s0), cfg), CardMessage(ApprovalCard(d, cfg))), cfg);
      case AskPermission(d) =>
        AskedPlan(s, RequestCard(d, cfg), cfg);
        CheckedPlan(Push(CloseSegment(FinishStatus(s), cfg), CardMessage(RequestCard(d, cfg))), cfg);
      case AnswerPermission(id, option) =>
        DecidedPlan(s, id, if "reject" <= option.kind then Rejected else Approved, option.name, cfg);
      case WithdrawPermission(id) => DecidedPlan(s, id, Cancelled, "", cfg);
    }
  }

  lemma AskedPlan(s: State, card: Card, cfg: Config)
    ensures SamePlan(s, Push(CloseSegment(FinishStatus(s), cfg), CardMessage(card)))
  {
    hide CloseSegment, FinishStatus, Stamp;
    SettledPlan(s, cfg);
  }

  lemma DecidedPlan(s: State, requestId: string, status: Decision, name: string, cfg: Config)
    ensures SamePlan(s, DecidePermission(s, requestId, status, name, cfg))
  {
    hide EnforceBudget, FindFirstCard;
    var i := FindFirstCard(s.messages, PermissionKey(requestId));
    if i.Some? {
      var d := s.messages[i.value].variant.card.permission.(status := status, selectedOptionName := name);
      CheckedPlan(ReplaceFirstCard(s, PermissionKey(requestId), PermissionCard(d)), cfg);
    }
  }

  lemma AcpPlan(s: State, a: Action, cfg: Config)
    requires a.AcpStatus? || a.AcpError? || a.AcpFailure? || a.AcpStatusOver?
    ensures SamePlan(s, Act(s, a, cfg))
  {
    hide EnforceBudget, Apply, PushMcpApproval, PushPermission, DecidePermission, WithAcpStatus, WithAcpError, Recorded,
         WithoutId, FinishStatus, Push, Repeats;
    match a {
      case AcpStatus(title) =>
        StatusRowPlan(s, title);
        CheckedPlan(WithAcpStatus(s, title), cfg);
      case AcpError(text) => ErrorPlan(s, text, cfg);
      case AcpFailure(e, text) =>
        RecordedPlan(s, e, cfg);
        ErrorPlan(Recorded(s, e, cfg).(streamingId := None), text, cfg);
      case AcpStatusOver =>
    }
  }

  lemma StatusRowPlan(s: State, text: string)
    ensures SamePlan(s, WithAcpStatus(s, text)) && SamePlan(s, WithAcpError(s, text))
  {
    hide Position, Stamp;
  }

  lemma ErrorPlan(s: State, text: string, cfg: Config)
    ensures SamePlan(s, SetAcpError(s, text, cfg))
  {
    hide EnforceBudget, FinishStatus, WithAcpError;
    SettledPlan(s, cfg);
    StatusRowPlan(FinishStatus(s), text);
    CheckedPlan(WithAcpError(FinishStatus(s), text), cfg);
  }

  /** Nothing but events of that turn, and no plan among them, and no clearing. */
  predicate WithinTurn(a: Action, turn: string) {
    !a.Clear? && (a.ApplyEvent? ==> a.event.turnId == turn && !a.event.PlanUpdated?)
  }

  lemma ActedPlan(s: State, a: Action, turn: string, cfg: Config)
    requires WithinTurn(a, turn) && s.currentTurn == Some(turn)
    ensures SamePlan(s, Act(s, a, cfg))
  {
    hide EnforceBudget, Apply, PushMcpApproval, PushPermission, DecidePermission, SetAcpStatus, SetAcpError, FailAcp,
         ClearAcpStatus, Push;
    match a {
      case ApplyEvent(e) => AppliedPlan(s, e, cfg);
      case PushSystem(text) => PushedPlan(s, SystemMessage(text), cfg);
      case PushUser(text) => PushedPlan(s, NewMessage(UserRole, text, Text, false), cfg);
      case PushCompaction(text, n) => PushedPlan(s, CardMessage(CompactionCard(n, text)), cfg);
      case Defer(on) =>
      case Flush => CheckedPlan(s.(deferred := false), cfg);
      case AcpStatus(_) => AcpPlan(s, a, cfg);
      case AcpError(_) => AcpPlan(s, a, cfg);
      case AcpFailure(_, _) => AcpPlan(s, a, cfg);
      case AcpStatusOver => AcpPlan(s, a, cfg);
      case _ => RequestPlan(s, a, cfg);
    }
  }

  lemma PushedPlan(s: State, m: Message, cfg: Config)
    ensures SamePlan(s, EnforceBudget(Push(s, m), cfg))
  {
    hide EnforceBudget, Stamp;
    CheckedPlan(Push(s, m), cfg);
  }

  // ----- the plan row through a run -----

  lemma {:induction false} RowHasCard(ms: seq<Message>, key: CardKey, x: nat, cfg: Config)
    ensures HasRow(Rows(ms, key, cfg), x) ==> HasCard(ms, key, x)
  {
    hide IsCard, Shown;
    if HasRow(Rows(ms, key, cfg), x) {
      var rows, rest := Rows(ms, key, cfg), Rows(ms[1..], key, cfg);
      if !(IsCard(ms[0], key) && ms[0].id == x) {
        var i :| 0 <= i < |rows| && rows[i].id == x;
        assert rest[i + |rest| - |rows|] == rows[i];
        RowHasCard(ms[1..], key, x, cfg);
        var k :| 0 <= k < |ms[1..]| && ms[1..][k].id == x && IsCard(ms[1..][k], key);
        assert ms[k + 1] == ms[1..][k];
      }
    }
  }

  /** The rows of message x show that plan. */
  ghost predicate RowsSay(rows: seq<Row>, x: nat, plan: PlanData, cfg: Config) {
    forall row :: row in rows && row.id == x ==> row.card == Shown(PlanCard(plan), cfg)
  }

  lemma {:induction false} MessagesSay(ms: seq<Message>, x: nat, plan: PlanData, cfg: Config)
    requires forall i :: 0 <= i < |ms| && ms[i].id == x && IsCard(ms[i], PlanKey) ==>
                           ms[i].variant == CardOf(PlanCard(plan))
    ensures RowsSay(Rows(ms, PlanKey, cfg), x, plan, cfg)
  {
    hide KeyOf, Shown;
    if ms != [] {
      MessagesSay(ms[1..], x, plan, cfg);
    }
  }

  /** No plan row has an id from `next` on. */
  ghost predicate NoNewer(ms: seq<Message>, next: nat) {
    forall y: nat :: HasCard(ms, PlanKey, y) ==> y < next
  }

  /**
   As long as the row of message x is there it is the turn's plan row, shows the latest
   plan, and no plan row was added since the ids reached `next`.
   */
  ghost predicate PlanStands(s: State, x: nat, turn: string, next: nat, cfg: Config) {
    && x < next <= s.nextId && s.currentTurn == Some(turn) && s.latestPlan.Some?
    && (HasCard(s.messages, PlanKey, x) ==> s.planMessageId == Some(x) && NoNewer(s.messages, next))
    && RowsSay(RowsOf(s, PlanKey, cfg), x, s.latestPlan.value, cfg)
  }

  lemma PlanThins(s: State, t: State, x: nat, turn: string, next: nat, cfg: Config)
    requires PlanStands(s, x, turn, next, cfg) && SamePlan(s, t) && Thins(s, t, PlanKey, cfg)
    ensures PlanStands(t, x, turn, next, cfg)
  {
    hide Rows, Shown, HasCard, HasRow, Except;
    var rows := RowsOf(s, PlanKey, cfg);
    var gone: set<nat> :| RowsOf(t, PlanKey, cfg) == Except(rows, gone);
    LeftAreOld(rows, gone);
    forall y | HasCard(t.messages, PlanKey, y) ensures HasCard(s.messages, PlanKey, y) {
      CardHasRow(t.messages, PlanKey, y, cfg);
      WasThere(rows, gone, y);
      RowHasCard(s.messages, PlanKey, y, cfg);
    }
  }

  lemma WasThere(rows: seq<Row>, gone: set<nat>, x: nat)
    requires HasRow(Except(rows, gone), x)
    ensures HasRow(rows, x)
  {
    EndStays(rows, gone, x);
  }

  /** The plan's row, before the plan changes. */
  function PlanPlace(s: State): nat {
    var i := PositionOf(s.messages, s.planMessageId);
    if i.Some? then s.messages[i.value].id else s.nextId
  }

  /** A plan goes to the row that is remembered, or to a new one. */
  lemma PlanGoesTo(s: State, plan: PlanData, cfg: Config)
    requires Inv(s)
    ensures var t, x := UpsertPlan(s, plan), PlanPlace(s);
            && t.planMessageId == Some(x) && t.latestPlan == Some(plan) && t.currentTurn == s.currentTurn
            && x < t.nextId && t.nextId >= s.nextId
            && RowsSay(RowsOf(t, PlanKey, cfg), x, plan, cfg)
            && (forall y :: HasCard(t.messages, PlanKey, y) ==> HasCard(s.messages, PlanKey, y) || y == x)
  {
    hide HasTag, Shown, Rows;
    var t, x, i := UpsertPlan(s, plan), PlanPlace(s), PositionOf(s.messages, s.planMessageId);
    if i.Some? {
      assert forall j :: 0 <= j < |s.messages| && j != i.value ==> t.messages[j] == s.messages[j];
    }
    MessagesSay(t.messages, x, plan, cfg);
  }

  lemma PlanRemembered(s: State, x: nat)
    requires Inv(s) && s.planMessageId == Some(x) && HasCard(s.messages, PlanKey, x)
    ensures PlanPlace(s) == x
  {
  }

  lemma PlaceIsRow(s: State)
    requires Inv(s)
    ensures PlanPlace(s) < s.nextId ==> HasCard(s.messages, PlanKey, PlanPlace(s))
  {
    hide HasTag;
    var i := PositionOf(s.messages, s.planMessageId);
    if i.Some? {
      OneTag(s.messages, i.value, KindOf(s.messages[i.value]));
    }
  }

  lemma PlanReplaced(s: State, plan: PlanData, x: nat, turn: string, next: nat, cfg: Config)
    requires Inv(s) && PlanStands(s, x, turn, next, cfg)
    ensures PlanStands(UpsertPlan(s, plan), x, turn, next, cfg)
  {
    hide Inv, Rows, Shown, HasCard, HasRow, UpsertPlan, PlanPlace;
    var t := UpsertPlan(s, plan);
    PlanGoesTo(s, plan, cfg);
    PlaceIsRow(s);
    if HasCard(s.messages, PlanKey, x) {
      PlanRemembered(s, x);
    } else {
      NoPlanRow(t, x, plan, cfg);
    }
  }

  lemma NoPlanRow(t: State, x: nat, plan: PlanData, cfg: Config)
    requires !HasCard(t.messages, PlanKey, x)
    ensures RowsSay(RowsOf(t, PlanKey, cfg), x, plan, cfg)
  {
    hide Rows, HasCard;
    RowHasCard(t.messages, PlanKey, x, cfg);
    var rows := RowsOf(t, PlanKey, cfg);
    forall row | row in rows ensures row.id != x {
      var i :| 0 <= i < |rows| && rows[i] == row;
      assert rows[i].id == x ==> HasRow(rows, x);
    }
  }

  lemma PlanThroughCheck(s: State, x: nat, turn: string, next: nat, cfg: Config)
    requires Inv(s) && PlanStands(s, x, turn, next, cfg)
    ensures PlanStands(EnforceBudget(s, cfg), x, turn, next, cfg)
  {
    hide Inv, EnforceBudget, PlanStands, SamePlan, Thins;
    NothingThins(s, PlanKey, cfg);
    CheckThins(s, s, PlanKey, cfg);
    CheckedPlan(s, cfg);
    PlanThins(s, EnforceBudget(s, cfg), x, turn, next, cfg);
  }

  lemma PlanApplied(s: State, e: Event, x: nat, next: nat, cfg: Config)
    requires Inv(s) && PlanStands(s, x, e.turnId, next, cfg) && e.PlanUpdated?
    ensures PlanStands(Apply(s, e, cfg), x, e.turnId, next, cfg)
  {
    hide Inv, EnforceBudget, UpsertPlan, Rows, HasCard, RowsSay;
    var s1 := EnterTurn(s, e.turnId);
    EnteredKeeps(s, e.turnId);
    PlanReplaced(s1, e.plan, x, e.turnId, next, cfg);
    UpsertPlanKeeps(s1, e.plan);
    PlanThroughCheck(UpsertPlan(s1, e.plan), x, e.turnId, next, cfg);
  }

  lemma NoneNewer(s: State)
    requires Inv(s)
    ensures NoNewer(s.messages, s.nextId)
  {
  }

  lemma FirstPlan(s: State, e: Event, cfg: Config) returns (x: nat)
    requires Inv(s) && e.PlanUpdated?
    ensures x == PlanPlace(EnterTurn(s, e.turnId))
    ensures Inv(Apply(s, e, cfg)) 
            && PlanStands(Apply(s, e, cfg), x, e.turnId, Apply(s, e, cfg).nextId, cfg)
  {
    hide Inv, EnforceBudget, UpsertPlan, Rows, HasCard, RowsSay, PlanPlace;
    var s1 := EnterTurn(s, e.turnId);
    EnteredKeeps(s, e.turnId);
    x := PlanPlace(s1);
    PlanGoesTo(s1, e.plan, cfg);
    UpsertPlanKeeps(s1, e.plan);
    EnforceKeeps(UpsertPlan(s1, e.plan), cfg);
    CheckedNext(UpsertPlan(s1, e.plan), cfg);
    NoneNewer(UpsertPlan(s1, e.plan));
    PlanThroughCheck(UpsertPlan(s1, e.plan), x, e.turnId, UpsertPlan(s1, e.plan).nextId, cfg);
  }

  predicate IsPlan(a: Action, turn: string) {
    a.ApplyEvent? && a.event.PlanUpdated? && a.event.turnId == turn
  }

  /** Plans of the turn, and whatever else happens within it. */
  predicate OfTurn(actions: seq<Action>, turn: string) {
    forall i :: 0 <= i < |actions| ==> IsPlan(actions[i], turn) || WithinTurn(actions[i], turn)
  }

  lemma PlanActed(s: State, a: Action, x: nat, turn: string, next: nat, cfg: Config)
    requires Inv(s) && PlanStands(s, x, turn, next, cfg) && (IsPlan(a, turn) || WithinTurn(a, turn))
    ensures PlanStands(Act(s, a, cfg), x, turn, next, cfg)
  {
    hide Inv, PlanStands, Act, SamePlan, Thins, Apply;
    if IsPlan(a, turn) {
      ActIsApply(s, a.event, cfg);
      PlanApplied(s, a.event, x, next, cfg);
    } else {
      TurnOfPlan(s, x, turn, next, cfg);
      ActedPlan(s, a, turn, cfg);
      NoPlanConcerns(a, turn);
      ActThins(s, a, PlanKey, cfg);
      PlanThins(s, Act(s, a, cfg), x, turn, next, cfg);
    }
  }

  lemma TurnOfPlan(s: State, x: nat, turn: string, next: nat, cfg: Config)
    requires PlanStands(s, x, turn, next, cfg)
    ensures s.currentTurn == Some(turn)
  {
  }

  lemma NoPlanConcerns(a: Action, turn: string)
    requires WithinTurn(a, turn)
    ensures !Concerns(a, PlanKey)
  {
  }

  /**
   Within a turn, however many plans come and whatever else happens in between: as long
   as the row of the first plan is there, it is the one the turn remembers, it shows the
   latest plan within the field limits, and no other plan row was added.
   */
  lemma {:induction false} PlansShareARow(s: State, first: Event, actions: seq<Action>, cfg: Config) returns (x: nat)
    requires Inv(s) && first.PlanUpdated? && OfTurn(actions, first.turnId)
    ensures x == PlanPlace(EnterTurn(s, first.turnId))
    ensures var begun := Apply(s, first, cfg);
            var t := RunFrom(begun, actions, cfg);
            Inv(t) && PlanStands(t, x, first.turnId, begun.nextId, cfg)
    decreases |actions|
  {
    hide Inv, Apply, PlanStands, Act, PlanPlace, IsPlan, WithinTurn, EnterTurn;
    if actions == [] {
      x := FirstPlan(s, first, cfg);
    } else {
      var front, a := actions[..|actions| - 1], actions[|actions| - 1];
      x := PlansShareARow(s, first, front, cfg);
      var u := RunFrom(Apply(s, first, cfg), front, cfg);
      ActKeeps(u, a, cfg);
      PlanActed(u, a, x, first.turnId, Apply(s, first, cfg).nextId, cfg);
    }
  }
}
