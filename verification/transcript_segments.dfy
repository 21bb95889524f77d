/**
 Two things a transcript does not do: it does not close every segment that ends,
 and it does not keep a segment's turn when an event of another turn closes it.
 */
module TranscriptSegments {
  import opened Basics
  import opened BoundedText
  import opened FencedBlocks
  import opened TranscriptState
  import opened TranscriptInvariant
  import opened TranscriptStream

  /** The status row's removal keeps the segment. */
  lemma FinishKeepsTag(s: State, id: nat)
    requires Inv(s) && s.streamingId == Some(id)
    ensures Inv(FinishStatus(s)) && FinishStatus(s).streamingId == Some(id)
    ensures FinishStatus(s).nextId == s.nextId && HasTag(FinishStatus(s).messages, id, LiveText)
  {
    FinishStatusKeeps(s);
  }

  lemma PushKeepsTag(s: State, m: Message, id: nat)
    requires Inv(s) && id < s.nextId
    ensures HasTag(Push(s, m).messages, id, LiveText) <==> HasTag(s.messages, id, LiveText)
  {
    Stamped(s.messages, [m], s.currentTurn, s.nextId);
  }

  lemma IdIsOld(s: State, id: nat)
    requires Inv(s) && s.streamingId == Some(id)
    ensures id < s.nextId
  {
    var i :| 0 <= i < |s.messages| && s.messages[i].id == id && KindOf(s.messages[i]) == LiveText;
  }

  /** Replacing the segment's message takes its id away. */
  lemma ReplacedTagGoes(s: State, more: seq<Message>, id: nat)
    requires Inv(s) && s.streamingId == Some(id)
    ensures var i := PositionOf(s.messages, s.streamingId);
            && i.Some? && id < s.nextId
            && !HasTag(ReplaceBy(s.(streamingId := None), i.value, more).messages, id, LiveText)
  {
    StreamingAt(s);
    IdIsOld(s, id);
    var i := PositionOf(s.messages, s.streamingId);
    SpliceTags(s.messages, i.value, more, s.currentTurn, s.nextId);
  }

  lemma ClosedTagGoes(s: State, cfg: Config, id: nat)
    requires Inv(s) && s.streamingId == Some(id)
    ensures var t := CloseSegment(FinishStatus(s), cfg);
            Inv(t) && id < t.nextId && !HasTag(t.messages, id, LiveText)
  {
    FinishKeepsTag(s, id);
    var s1 := FinishStatus(s);
    StreamingAt(s1);
    var m := s1.messages[PositionOf(s1.messages, s1.streamingId).value];
    ReplacedTagGoes(s1, Finished(m.content, Some(m.reasoning), cfg), id);
    CloseSegmentKeeps(s1, cfg);
  }

  // ----- the ends that leave the message open -----

  lemma FailureLeavesOpen(s: State, reason: string, cfg: Config, id: nat)
    requires Inv(s) && s.streamingId == Some(id)
    ensures var t := Push(FinishStatus(s).(streamingId := None), SystemMessage(cfg.failedText(reason)));
            t.streamingId.None? && HasTag(t.messages, id, LiveText)
  {
    FinishKeepsTag(s, id);
    IdIsOld(s, id);
    PushKeepsTag(FinishStatus(s).(streamingId := None), SystemMessage(cfg.failedText(reason)), id);
  }

  lemma ReasoningLeavesOpen(s: State, delta: string, cfg: Config, id: nat)
    requires Inv(s) && s.streamingId == Some(id)
    ensures AppendReasoning(s, delta, cfg).streamingId == Some(id) <==> !SegmentHasText(FinishStatus(s))
    ensures SegmentHasText(FinishStatus(s)) ==> HasTag(AppendReasoning(s, delta, cfg).messages, id, LiveText)
  {
    FinishKeepsTag(s, id);
    IdIsOld(s, id);
    var s0 := FinishStatus(s);
    StreamingAt(s0);
    if SegmentHasText(s0) {
      var s1 := s0.(streamingId := None);
      assert PositionOf(s1.messages, s1.streamingId).None?;
      PushKeepsTag(s1, WithReasoning(s1.messages, None, delta, cfg), id);
    }
  }

  // ----- the ends that close it -----

  lemma FinalTextCloses(s: State, text: string, reasoning: Option<string>, cfg: Config, id: nat)
    requires Inv(s) && s.streamingId == Some(id)
    ensures !HasTag(FinalizeAssistant(s, text, reasoning, cfg).messages, id, LiveText)
  {
    FinishKeepsTag(s, id);
    var s1 := FinishStatus(s);
    StreamingAt(s1);
    var i := PositionOf(s1.messages, s1.streamingId).value;
    var kept := if reasoning.Some? then reasoning.value else s1.messages[i].reasoning;
    ReplacedTagGoes(s1, Finished(text, Some(kept), cfg), id);
  }

  lemma ToolCallCloses(s: State, callId: string, name: string, action: ToolAction, arguments: Arguments,
                       cfg: Config, id: nat)
    requires Inv(s) && s.streamingId == Some(id)
    ensures !HasTag(PushToolCall(s, callId, name, action, arguments, cfg).messages, id, LiveText)
  {
    ClosedTagGoes(s, cfg, id);
    var s1 := CloseSegment(FinishStatus(s), cfg);
    CacheRows(s1, callId, arguments);
    var d := ToolCardData(callId, name, action, None, None, arguments.summary, arguments.json,
                          true, None, "", "", [], None);
    PushKeepsTag(CacheToolInput(s1, callId, arguments), CardMessage(ToolCard(BoundTool(d, CardLimit(cfg)))), id);
  }

  lemma SubagentCloses(s: State, subagentId: string, name: string, task: string, cfg: Config, id: nat)
    requires Inv(s) && s.streamingId == Some(id)
    ensures !HasTag(PushSubagent(s, subagentId, name, task, cfg).messages, id, LiveText)
  {
    ClosedTagGoes(s, cfg, id);
    var s1 := CloseSegment(FinishStatus(s), cfg);
    var d := BoundSubagent(SubAgentData(subagentId, name, task, true, None, ""), CardLimit(cfg));
    PushKeepsTag(UpsertSubagent(s1, d, cfg), CardMessage(SubAgentCard(d)), id);
  }

  lemma CancelCloses(s: State, cfg: Config, id: nat)
    requires Inv(s) && s.streamingId == Some(id)
    ensures !HasTag(Push(CloseSegment(FinishStatus(s), cfg), SystemMessage(cfg.cancelledText)).messages, id, LiveText)
  {
    ClosedTagGoes(s, cfg, id);
    PushKeepsTag(CloseSegment(FinishStatus(s), cfg), SystemMessage(cfg.cancelledText), id);
  }

  // ----- the budget and the segment -----

  ghost predicate HasId(ms: seq<Message>, id: nat) {
    exists i :: 0 <= i < |ms| && ms[i].id == id
  }

  /** The message of an ended segment is still there and still marked as streaming. */
  ghost predicate LeftOpen(t: State, id: nat) {
    t.streamingId != Some(id) && HasTag(t.messages, id, LiveText)
  }

  /** From s to t messages only went: an id that stays keeps its kind, and the segment is forgotten with its message. */
  ghost predicate OnlyDrops(s: State, t: State, id: nat) {
    && (HasTag(t.messages, id, LiveText) <==> HasTag(s.messages, id, LiveText) && HasId(t.messages, id))
    && (t.streamingId == Some(id) <==> s.streamingId == Some(id) && HasId(t.messages, id))
    && (HasId(t.messages, id) ==> HasId(s.messages, id))
  }

  lemma TagHasId(ms: seq<Message>, id: nat, kind: Kind)
    requires HasTag(ms, id, kind)
    ensures HasId(ms, id)
  {
  }

  lemma HasIdHasTag(ms: seq<Message>, id: nat)
    ensures HasId(ms, id) <==> exists k :: HasTag(ms, id, k)
  {
    if HasId(ms, id) {
      var i :| 0 <= i < |ms| && ms[i].id == id;
      assert HasTag(ms, id, KindOf(ms[i]));
    }
  }

  lemma StreamingHasId(s: State, id: nat)
    requires Inv(s) && s.streamingId == Some(id)
    ensures HasId(s.messages, id)
  {
    TagHasId(s.messages, id, LiveText);
  }

  lemma DropsAdd(s: State, t: State, u: State, id: nat)
    requires OnlyDrops(s, t, id) && OnlyDrops(t, u, id)
    ensures OnlyDrops(s, u, id)
  {
    hide HasTag, HasId;
  }

  lemma NothingDrops(s: State, id: nat)
    requires Inv(s)
    ensures OnlyDrops(s, s, id)
  {
    hide HasTag;
    if s.streamingId == Some(id) {
      StreamingHasId(s, id);
    }
    if HasTag(s.messages, id, LiveText) {
      TagHasId(s.messages, id, LiveText);
    }
  }

  lemma TruncationDrops(s: State, max: nat, id: nat)
    requires Inv(s)
    ensures OnlyDrops(s, s.(messages := TruncateAll(s.messages, max)), id)
  {
    hide TruncateFields;
    var ms, after := s.messages, TruncateAll(s.messages, max);
    forall i | 0 <= i < |ms| ensures after[i].id == ms[i].id && KindOf(after[i]) == KindOf(ms[i]) {
      TruncatedKind(ms[i], max);
    }
    NothingDrops(s, id);
    assert HasId(after, id) <==> HasId(ms, id);
    assert HasTag(after, id, LiveText) <==> HasTag(ms, id, LiveText);
  }

  lemma CutIds(ms: seq<Message>, i: nat, id: nat)
    requires Distinct(ms) && i < |ms|
    ensures var after := ms[..i] + ms[i + 1..];
            && (HasId(after, id) <==> HasId(ms, id) && id != ms[i].id)
            && (HasTag(after, id, LiveText) <==> HasTag(ms, id, LiveText) && id != ms[i].id)
  {
    hide HasTag, HasId;
    CutOut(ms, i);
    HasIdHasTag(ms, id);
    HasIdHasTag(ms[..i] + ms[i + 1..], id);
  }

  lemma RemovalDrops(s: State, i: nat, id: nat)
    requires Inv(s) && i < |s.messages|
    ensures OnlyDrops(s, RemoveMessage(s, i), id)
  {
    hide HasTag, HasId;
    CutIds(s.messages, i, id);
    NothingDrops(s, id);
  }

  lemma {:induction false} EvictionDrops(s: State, cfg: Config, id: nat)
    requires Inv(s)
    ensures OnlyDrops(s, Evict(s, cfg), id)
    decreases |s.messages|
  {
    hide OnlyDrops, Inv, OverBudget, Victim;
    if s.messages != [] && OverBudget(s.messages, cfg) {
      var t := RemoveMessage(s, Victim(s));
      RemoveMessageKeeps(s, Victim(s));
      RemovalDrops(s, Victim(s), id);
      EvictionDrops(t, cfg, id);
      DropsAdd(s, t, Evict(t, cfg), id);
    } else {
      NothingDrops(s, id);
    }
  }

  lemma BudgetDrops(s: State, cfg: Config, id: nat)
    requires Inv(s)
    ensures OnlyDrops(s, EnforceBudget(s, cfg), id)
  {
    hide OnlyDrops, Inv, Evict;
    if s.deferred {
      NothingDrops(s, id);
    } else {
      var t := s.(messages := TruncateAll(s.messages, cfg.maxFieldBytes));
      TruncateAllKeeps(s, cfg.maxFieldBytes);
      TruncationDrops(s, cfg.maxFieldBytes, id);
      EvictionDrops(t, cfg, id);
      DropsAdd(s, t, Evict(t, cfg), id);
    }
  }

  /** A budget that drops nothing keeps every id. */
  lemma UndroppedStays(s: State, cfg: Config, id: nat)
    requires EnforceBudget(s, cfg).dropped == s.dropped && HasId(s.messages, id)
    ensures HasId(EnforceBudget(s, cfg).messages, id)
  {
    hide TruncateFields;
    var t := s.(messages := TruncateAll(s.messages, cfg.maxFieldBytes));
    EvictCounts(t, cfg);
    var i :| 0 <= i < |s.messages| && s.messages[i].id == id;
    TruncatedKind(s.messages[i], cfg.maxFieldBytes);
    assert t.messages[i].id == id;
  }

  // ----- which ends are which -----

  /** Whether the event ends the segment without closing it. */
  predicate LeavesOpen(s: State, e: Event) {
    e.TurnStarted? || e.TurnFailed? || (e.ReasoningDelta? && SegmentHasText(s))
  }

  lemma GoesOnWithinBudget(s: State, t: State, cfg: Config, id: nat)
    requires Inv(t) && t.streamingId == Some(id)
    ensures !LeftOpen(EnforceBudget(t, cfg), id)
  {
    hide HasTag, HasId, EnforceBudget;
    BudgetDrops(t, cfg, id);
  }

  lemma ConfirmGoesOn(s: State, e: Event, cfg: Config, id: nat)
    requires Inv(s) && s.streamingId == Some(id) && e.NeedUserInput?
    ensures !LeftOpen(Reduce(s, e, cfg), id)
  {
    hide HasTag, EnforceBudget, Inv, LeftOpen, BoundConfirm, ConfirmInput;
    FinishKeepsTag(s, id);
    var s1 := FinishStatus(s);
    var input := ConfirmInput(s1, e.pendingCallId, e.requestedArguments);
    var d := ConfirmData(if e.pendingCallId.Some? then e.pendingCallId.value else "",
                         if e.requestedTool.Some? then e.requestedTool.value else "unknown",
                         e.pendingCalls, input.0, input.1, e.question, Pending);
    var m := CardMessage(ConfirmCard(BoundConfirm(d, CardLimit(cfg))));
    PushKeeps(s1, m);
    GoesOnWithinBudget(s, Push(s1, m), cfg, id);
  }

  lemma ResolveGoesOn(s: State, callId: string, approved: bool, cfg: Config, id: nat)
    requires Inv(s) && s.streamingId == Some(id)
    ensures !LeftOpen(ResolveConfirm(s, callId, approved, cfg), id)
  {
    hide HasTag, EnforceBudget, Inv;
    var i := FindCard(s.messages, ConfirmKey(callId));
    if i.Some? {
      var d := s.messages[i.value].variant.card.confirm.(status := if approved then Approved else Rejected);
      ReplaceCardKeeps(s, ConfirmKey(callId), ConfirmCard(d));
      GoesOnWithinBudget(s, ReplaceCard(s, ConfirmKey(callId), ConfirmCard(d)), cfg, id);
    }
  }

  lemma UserGoesOn(s: State, text: string, cfg: Config, id: nat)
    requires Inv(s) && s.streamingId == Some(id)
    ensures !LeftOpen(EnforceBudget(Push(s, NewMessage(UserRole, text, Text, false)), cfg), id)
  {
    hide HasTag, EnforceBudget, Inv, LeftOpen;
    PushKeeps(s, NewMessage(UserRole, text, Text, false));
    GoesOnWithinBudget(s, Push(s, NewMessage(UserRole, text, Text, false)), cfg, id);
  }

  /** Rows and cards do not touch the segment being written. */
  lemma RowsGoOn(s: State, e: Event, cfg: Config, id: nat)
    requires s.streamingId == Some(id)
    requires e.StatusChanged? || e.PlanUpdated? || e.SubAgentUpdated? || e.SubAgentFinished? || e.ObservationAdded?
             || e.ToolCallFinished?
    ensures Reduce(s, e, cfg).streamingId == Some(id)
  {
    hide Observed, TrimSubagents, FindSubagent, BoundSubagent, LookupSubagent;
  }

  lemma TextGoesOnHere(s: State, delta: string, cfg: Config, id: nat)
    requires Inv(s) && s.streamingId == Some(id)
    ensures AppendDelta(s, delta, cfg).streamingId == Some(id)
  {
    hide AppendBounded;
    FinishKeepsTag(s, id);
    StreamingAt(FinishStatus(s));
  }

  lemma SegmentGoesOn(s: State, e: Event, cfg: Config, id: nat)
    requires Inv(s) && s.streamingId == Some(id)
    requires !Closes(e) && !e.TurnStarted? && !e.TurnFailed? && !e.ReasoningDelta?
    ensures !LeftOpen(Reduce(s, e, cfg), id)
  {
    hide HasTag, Inv, AppendDelta, EnforceBudget, PushConfirm, ResolveConfirm, LookupSubagent, TrimSubagents,
         FindSubagent, BoundSubagent, Observed, UpsertStatus, UpsertPlan, FinishToolCall, ApplyObservation,
         UpdateSubagent, FinishSubagent;
    match e {
      case AssistantMessageDelta(_, delta) => TextGoesOnHere(s, delta, cfg, id);
      case UserMessage(_, text) => UserGoesOn(s, cfg.userText(text), cfg, id);
      case NeedUserInput(_, _, _, _, _, _) => ConfirmGoesOn(s, e, cfg, id);
      case ToolApprovalResolved(_, callId, approved) => ResolveGoesOn(s, callId, approved, cfg, id);
      case _ => RowsGoOn(s, e, cfg, id);
    }
  }

  lemma SegmentCloses(s: State, e: Event, cfg: Config, id: nat)
    requires Inv(s) && s.streamingId == Some(id) && Closes(e)
    ensures !LeftOpen(Reduce(s, e, cfg), id)
  {
    hide HasTag, Inv, FinalizeAssistant, PushToolCall, PushSubagent, CloseSegment;
    match e {
      case AssistantMessage(_, text, reasoning) => FinalTextCloses(s, text, reasoning, cfg, id);
      case ToolCallStarted(_, callId, name, action, arguments) =>
        ToolCallCloses(s, callId, name, action, arguments, cfg, id);
      case SubAgentStarted(_, subagentId, name, task) => SubagentCloses(s, subagentId, name, task, cfg, id);
      case TurnCompleted(_) => ClosedTagGoes(s, cfg, id);
      case TurnCancelled(_) => CancelCloses(s, cfg, id);
    }
  }

  /** What the event itself does to the segment. */
  lemma ReduceLeavesOpenIff(s: State, e: Event, cfg: Config, id: nat)
    requires Inv(s) && s.streamingId == Some(id)
    ensures LeftOpen(Reduce(s, e, cfg), id) <==> LeavesOpen(s, e)
  {
    hide HasTag, Inv, AppendReasoning, SegmentHasText;
    if Closes(e) {
      SegmentCloses(s, e, cfg, id);
    } else if e.TurnFailed? {
      FailureLeavesOpen(s, e.reason, cfg, id);
    } else if e.ReasoningDelta? {
      ReasoningLeavesOpen(s, e.delta, cfg, id);
      FinishKeepsLive(s);
    } else if e.TurnStarted? {
      assert HasTag(s.messages, id, LiveText) by { IsTagged(s, id); }
    } else {
      SegmentGoesOn(s, e, cfg, id);
    }
  }

  lemma IsTagged(s: State, id: nat)
    requires Inv(s) && s.streamingId == Some(id)
    ensures HasTag(s.messages, id, LiveText)
  {
  }

  /** Budget and bookkeeping around the event do not change that, unless the message is evicted. */
  lemma AppliedAround(s: State, e: Event, cfg: Config, id: nat)
    requires Inv(s) && s.streamingId == Some(id) && !Repeats(s, e, cfg)
    ensures var u := Recorded(EnterTurn(s, e.turnId), e, cfg);
            && Inv(u) && u.streamingId == Some(id) && u.dropped == s.dropped
            && SegmentHasText(u) == SegmentHasText(s)
            && Apply(s, e, cfg) == EnforceBudget(Reduce(u, e, cfg), cfg)
  {
    hide Recorded, Reduce, EnforceBudget;
    var s1 := EnterTurn(s, e.turnId);
    RecordedRows(s1, e, cfg);
    SameRowsKeep(s1, Recorded(s1, e, cfg));
  }

  /**
   An event leaves the message of the segment being written marked as streaming,
   with nothing pointing at it, exactly when it is a turn start, a turn failure that
   is no repetition, or a reasoning delta behind visible text, and the budget check
   at its end does not evict that message.
   */
  lemma SegmentLeftOpenIff(s: State, e: Event, cfg: Config, id: nat)
    requires Inv(s) && s.streamingId == Some(id)
    ensures var t := Apply(s, e, cfg);
            && (LeftOpen(t, id) <==> !Repeats(s, e, cfg) && LeavesOpen(s, e) && HasId(t.messages, id))
            && (t.dropped == s.dropped ==> (LeftOpen(t, id) <==> !Repeats(s, e, cfg) && LeavesOpen(s, e)))
  {
    hide HasTag, HasId, Inv, Reduce, EnforceBudget, Recorded, SegmentHasText, Repeats;
    if !Repeats(s, e, cfg) {
      AppliedAround(s, e, cfg, id);
      var u := Recorded(EnterTurn(s, e.turnId), e, cfg);
      var r := Reduce(u, e, cfg);
      ReduceLeavesOpenIff(u, e, cfg, id);
      ReduceKeeps(u, e, cfg);
      BudgetDrops(r, cfg, id);
      if LeftOpen(r, id) {
        TagHasId(r.messages, id, LiveText);
        ReduceCounts(u, e, cfg);
        EnforceCounts(r, cfg);
        if EnforceBudget(r, cfg).dropped == r.dropped {
          UndroppedStays(r, cfg, id);
        }
      }
    } else {
      assert Apply(s, e, cfg).streamingId == Some(id) by { RepeatedStays(s, e, cfg); }
    }
  }

  lemma RepeatedStays(s: State, e: Event, cfg: Config)
    requires Repeats(s, e, cfg)
    ensures Apply(s, e, cfg).streamingId == s.streamingId
  {
    hide Reduce, EnforceBudget, Recorded;
  }

  // ----- a failed turn -----

  /** Two messages at most, and both budgets have room for them. */
  predicate RoomForFailure(text: string, reason: string, deferred: bool, cfg: Config) {
    && Bytes(text) <= cfg.maxFieldBytes
    && (deferred || (cfg.maxMessages >= 2 && Bytes(text) + Bytes(cfg.failedText(reason)) <= cfg.maxTextBytes))
  }

  /** One open segment and nothing else. */
  ghost predicate OneSegment(s: State, text: string) {
    && s.activeStatusId.None? && s.terminalEvents == {}
    && |s.messages| == 1 && s.streamingId == Some(s.messages[0].id)
    && s.messages[0].(id := 0, turn := None) == StreamingMessage(text, "")
  }

  lemma TruncatedLength(text: string, max: nat)
    ensures Bytes(TruncateToRecent(text, max)) <= Bytes(text)
  {
    var k := TruncateIsRecent(text, max);
  }

  /** One or two short texts pass the budget check. */
  lemma FewPass(s: State, cfg: Config)
    requires forall i :: 0 <= i < |s.messages| ==> s.messages[i].variant.Text? && s.messages[i].reasoning == ""
    requires s.deferred || (|s.messages| <= cfg.maxMessages
                            && TextBytes(TruncateAll(s.messages, cfg.maxFieldBytes), cfg) <= cfg.maxTextBytes)
    ensures EnforceBudget(s, cfg) ==
            if s.deferred then s else s.(messages := TruncateAll(s.messages, cfg.maxFieldBytes))
  {
    hide TruncateFields;
  }

  lemma ShortStays(m: Message, max: nat)
    requires m.variant.Text? && Bytes(m.content) <= max && m.reasoning == ""
    ensures TruncateFields(m, max) == m
  {
  }

  lemma FirstDelta(turn: string, text: string, reason: string, deferred: bool, cfg: Config)
    requires RoomForFailure(text, reason, deferred, cfg)
    ensures var s := Apply(EMPTY.(deferred := deferred), AssistantMessageDelta(turn, text), cfg);
            OneSegment(s, text) && s.deferred == deferred
  {
    hide TruncateFields, Bytes;
    assert "" + text == text;
    var s := EnterTurn(EMPTY.(deferred := deferred), turn);
    RoomForAll("", text, cfg.maxFieldBytes);
    assert WithText(s.messages, None, text, cfg) == StreamingMessage(text, "");
    var t := Push(s, StreamingMessage(text, "")).(streamingId := Some(s.nextId));
    ShortStays(t.messages[0], cfg.maxFieldBytes);
    FewPass(t, cfg);
  }

  lemma NoStatusRow(s: State, m: Message)
    requires s.activeStatusId.None?
    ensures Push(FinishStatus(s).(streamingId := None), m) ==
            s.(streamingId := None, messages := s.messages + [m.(id := s.nextId, turn := s.currentTurn)],
               nextId := s.nextId + 1)
  {
    assert Stamp([m], s.currentTurn, s.nextId) == [m.(id := s.nextId, turn := s.currentTurn)];
  }

  lemma TwoTexts(a: Message, b: Message, cfg: Config)
    requires a.variant.Text? && b.variant.Text? && a.reasoning == "" && b.reasoning == ""
    ensures TextBytes([a, b], cfg) == Bytes(a.content) + Bytes(b.content)
  {
    assert [a, b][1..] == [b] && [b][1..] == [];
    assert TextBytes([b], cfg) == MessageBytes(b, cfg) + TextBytes([], cfg);
    assert Bytes("") == 0;
  }

  lemma ShortText(m: Message, max: nat)
    requires m.variant.Text? && m.reasoning == ""
    ensures var t := TruncateFields(m, max);
            t.variant.Text? && t.reasoning == "" && Bytes(t.content) <= Bytes(m.content)
  {
    TruncatedLength(m.content, max);
    TruncatedLength(m.reasoning, max);
  }

  /** The open segment and the failure behind it pass the budget check. */
  lemma PairPasses(s: State, text: string, reason: string, cfg: Config)
    requires RoomForFailure(text, reason, s.deferred, cfg) && |s.messages| == 2
    requires s.messages[0].(id := 0, turn := None) == StreamingMessage(text, "")
    requires s.messages[1].(id := 0, turn := None) == SystemMessage(cfg.failedText(reason))
    ensures var t := EnforceBudget(s, cfg);
            |t.messages| == 2 && t.messages[0] == s.messages[0] && t.streamingId == s.streamingId
  {
    hide TruncateFields, Bytes, TextBytes;
    var a, b := s.messages[0], s.messages[1];
    var u, v := TruncateFields(a, cfg.maxFieldBytes), TruncateFields(b, cfg.maxFieldBytes);
    ShortStays(a, cfg.maxFieldBytes);
    ShortText(b, cfg.maxFieldBytes);
    TwoTexts(u, v, cfg);
    assert TruncateAll(s.messages, cfg.maxFieldBytes) == [u, v];
    FewPass(s, cfg);
  }

  lemma FailureAfter(s: State, turn: string, text: string, reason: string, cfg: Config)
    requires OneSegment(s, text) && RoomForFailure(text, reason, s.deferred, cfg)
    ensures var t := Apply(s, TurnFailed(turn, reason), cfg);
            && t.streamingId.None? && |t.messages| == 2
            && t.messages[0].content == text && t.messages[0].isStreaming
  {
    hide EnforceBudget, Recorded, RoomForFailure, Push, FinishStatus;
    var e := TurnFailed(turn, reason);
    var s1 := EnterTurn(s, turn);
    RecordedRows(s1, e, cfg);
    RecordedDeferred(s1, e, cfg);
    var u := Recorded(s1, e, cfg);
    NoStatusRow(u, SystemMessage(cfg.failedText(reason)));
    PairPasses(Reduce(u, e, cfg), text, reason, cfg);
  }

  /** A failed turn leaves its half-written text marked as streaming, with nothing pointing at it. */
  lemma FailedTurnStaysOpen(turn: string, text: string, reason: string, deferred: bool, cfg: Config)
    requires RoomForFailure(text, reason, deferred, cfg)
    ensures var s := Apply(Apply(EMPTY.(deferred := deferred), AssistantMessageDelta(turn, text), cfg),
                           TurnFailed(turn, reason), cfg);
            s.streamingId.None? && |s.messages| == 2 && s.messages[0].content == text && s.messages[0].isStreaming
  {
    hide Apply;
    FirstDelta(turn, text, reason, deferred, cfg);
    FailureAfter(Apply(EMPTY.(deferred := deferred), AssistantMessageDelta(turn, text), cfg), turn, text, reason, cfg);
  }

  lemma {:induction false} TrimTerminalsDeferred(s: State)
    ensures TrimTerminals(s).deferred == s.deferred
    decreases |s.terminalOrder|
  {
    if |s.terminalOrder| > MAX_TERMINAL_EVENTS {
      TrimTerminalsDeferred(s.(terminalEvents := s.terminalEvents - {s.terminalOrder[0]},
                               terminalOrder := s.terminalOrder[1..]));
    }
  }

  lemma RecordedDeferred(s: State, e: Event, cfg: Config)
    ensures Recorded(s, e, cfg).deferred == s.deferred
  {
    var key := TerminalKeyOf(e, cfg);
    if key.Some? && key.value !in s.terminalEvents {
      TrimTerminalsDeferred(s.(terminalEvents := s.terminalEvents + {key.value},
                               terminalOrder := s.terminalOrder + [key.value]));
    }
  }

  // ----- whose turn a closed segment is -----

  /** Message i became n messages; all others are as before. */
  ghost predicate Becomes(before: seq<Message>, after: seq<Message>, i: nat, n: nat) {
    && i < |before| && |after| == |before| + n - 1
    && after[..i] == before[..i] && after[i + n..] == before[i + 1..]
  }

  /**
   A segment closed by an event of a turn carries that turn from then on, with all
   the messages it becomes: it keeps its own turn exactly when the closing event is
   of that turn. Without a chart in it, it becomes one message of the same text.
   */
  lemma ClosedSegmentTurn(s: State, cfg: Config) returns (n: nat)
    requires Inv(s) && s.streamingId.Some?
    ensures var i, t := PositionOf(s.messages, s.streamingId).value, CloseSegment(s, cfg);
            && Becomes(s.messages, t.messages, i, n)
            && (forall j :: i <= j < i + n ==> t.messages[j].turn == s.currentTurn)
            && (!HasChart(Blocks(s.messages[i].content, 0), cfg.isChart) ==>
                  n == 1 && t.messages[i].content == s.messages[i].content
                  && t.messages[i].reasoning == s.messages[i].reasoning)
  {
    hide Finished, HasChart, Blocks;
    StreamingAt(s);
    var i := PositionOf(s.messages, s.streamingId).value;
    var m := s.messages[i];
    n := |Finished(m.content, Some(m.reasoning), cfg)|;
    if !HasChart(Blocks(m.content, 0), cfg.isChart) {
      FinishedWhole(m.content, m.reasoning, cfg);
    }
  }
}
