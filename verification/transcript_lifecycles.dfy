/**
 Calls and questions over whole runs: whatever else happens in between, what is
 observed, ended or answered shows on the card that was begun for it, as long as that
 card is still there.
 */
module TranscriptLifecycles {
  import opened Basics
  import opened BoundedText
  import opened FencedBlocks
  import opened TranscriptState
  import opened TranscriptInvariant
  import opened TranscriptBudget
  import opened TranscriptStuck
  import opened TranscriptCards
  import opened TranscriptRows
  import opened TranscriptRequests
  import opened TranscriptSegments

  // ----- the last card of a key -----

  ghost predicate HasRow(rows: seq<Row>, x: nat) {
    exists i :: 0 <= i < |rows| && rows[i].id == x
  }

  /** The card of message x is still there. */
  ghost predicate HasCard(ms: seq<Message>, key: CardKey, x: nat) {
    exists i :: 0 <= i < |ms| && ms[i].id == x && IsCard(ms[i], key)
  }

  lemma {:induction false} CardHasRow(ms: seq<Message>, key: CardKey, x: nat, cfg: Config)
    ensures HasCard(ms, key, x) ==> HasRow(Rows(ms, key, cfg), x)
  {
    hide IsCard, Shown;
    if HasCard(ms, key, x) {
      var rows, rest := Rows(ms, key, cfg), Rows(ms[1..], key, cfg);
      if ms[0].id == x && IsCard(ms[0], key) {
        assert rows[0].id == x;
      } else {
        var i :| 0 <= i < |ms| && ms[i].id == x && IsCard(ms[i], key);
        assert ms[1..][i - 1] == ms[i];
        CardHasRow(ms[1..], key, x, cfg);
        var k :| 0 <= k < |rest| && rest[k].id == x;
        assert rows[|rows| - |rest| + k] == rest[k];
      }
    }
  }

  /** A row that stays was there, and the last row stays the last. */
  lemma EndStays(rows: seq<Row>, gone: set<nat>, x: nat)
    requires HasRow(Except(rows, gone), x)
    ensures HasRow(rows, x)
    ensures var left := Except(rows, gone);
            rows[|rows| - 1].id == x ==> left[|left| - 1] == rows[|rows| - 1]
  {
    LeftAreOld(rows, gone);
    var i :| 0 <= i < |Except(rows, gone)| && Except(rows, gone)[i].id == x;
    var k :| 0 <= k < |rows| && rows[k] == Except(rows, gone)[i];
    if rows[|rows| - 1].id == x {
      LastIsLeft(rows, gone);
    }
  }

  /** As long as x is there it is the last card and shows that. */
  ghost predicate CallShows(rows: seq<Row>, x: nat, running: bool, success: Option<bool>, summary: string) {
    HasRow(rows, x) ==>
      var row := rows[|rows| - 1];
      && row.id == x && row.card.ToolCard? && row.card.tool.running == running
      && row.card.tool.success == success && row.card.tool.summary == summary
  }

  ghost predicate RequestShows(rows: seq<Row>, x: nat, status: Decision) {
    HasRow(rows, x) ==> rows[|rows| - 1].id == x && DecisionOf(rows[|rows| - 1].card) == Some(status)
  }

  lemma ShowsLeft(rows: seq<Row>, gone: set<nat>, x: nat)
    ensures forall running, success, summary :: CallShows(rows, x, running, success, summary) ==>
              CallShows(Except(rows, gone), x, running, success, summary)
    ensures forall status :: RequestShows(rows, x, status) ==> RequestShows(Except(rows, gone), x, status)
  {
    hide Except;
    if HasRow(Except(rows, gone), x) {
      EndStays(rows, gone, x);
    }
  }

  lemma ShowsThrough(s: State, actions: seq<Action>, key: CardKey, x: nat, cfg: Config)
    requires Inv(s) && key != NoKey && Apart(actions, key)
    ensures var t := RunFrom(s, actions, cfg);
            && Inv(t) && t.nextId >= s.nextId
            && (forall running, success, summary ::
                  CallShows(RowsOf(s, key, cfg), x, running, success, summary) ==>
                  CallShows(RowsOf(t, key, cfg), x, running, success, summary))
            && (forall status :: RequestShows(RowsOf(s, key, cfg), x, status) ==>
                                 RequestShows(RowsOf(t, key, cfg), x, status))
  {
    hide Inv, RunFrom, CallShows, RequestShows, RowsOf, Apart;
    RunThins(s, actions, key, cfg);
    var t := RunFrom(s, actions, cfg);
    var gone: set<nat> :| RowsOf(t, key, cfg) == Except(RowsOf(s, key, cfg), gone);
    ShowsLeft(RowsOf(s, key, cfg), gone, x);
  }

  // ----- tool calls -----

  /** What an event that is no repetition does. */
  lemma AppliedIs(s: State, e: Event, key: CardKey, cfg: Config)
    requires Inv(s) && !Repeats(EnterTurn(s, e.turnId), e, cfg)
    ensures var u := Recorded(EnterTurn(s, e.turnId), e, cfg);
            && Inv(u) && Frames(s, u, key, cfg) && Inv(Reduce(u, e, cfg))
            && Apply(s, e, cfg) == EnforceBudget(Reduce(u, e, cfg), cfg)
  {
    hide Inv, Recorded, Reduce, EnforceBudget, Frames, Repeats, EnterTurn;
    FramesEntered(s, e, key, cfg);
    ReduceKeeps(Recorded(EnterTurn(s, e.turnId), e, cfg), e, cfg);
  }

  /** A card that comes instead of the last of its key, seen from message x. */
  lemma ReplacedRows(s: State, key: CardKey, card: Card, cfg: Config)
    requires KeyOf(card) == key && FindCard(s.messages, key).Some?
    ensures var rows, i := RowsOf(s, key, cfg), FindCard(s.messages, key).value;
            && rows != [] && rows[|rows| - 1] == Row(s.messages[i].id, Shown(s.messages[i].variant.card, cfg))
            && RowsOf(ReplaceCard(s, key, card), key, cfg) ==
               rows[|rows| - 1 := Row(s.messages[i].id, Shown(card, cfg))]
  {
    hide Shown, FindCard, Rows;
    LastRow(s.messages, key, cfg);
    LastReplaced(s.messages, key, card, cfg);
  }

  lemma SameIds(rows: seq<Row>, row: Row, x: nat)
    requires rows != [] && row.id == rows[|rows| - 1].id && HasRow(rows[|rows| - 1 := row], x)
    ensures HasRow(rows, x)
  {
    var after := rows[|rows| - 1 := row];
    var i :| 0 <= i < |after| && after[i].id == x;
    assert rows[i].id == x;
  }

  lemma ObservedTool(d: ToolCardData, obs: Observation, cfg: Config)
    ensures var now, was := Shown(ToolCard(Observed(d, obs, cfg)), cfg), Shown(ToolCard(d), cfg);
            && now.ToolCard? && was.ToolCard?
            && now.tool.running == was.tool.running && now.tool.success == Some(obs.success)
            && now.tool.summary == TruncateToRecent(obs.summary, CardLimit(cfg))
            && KeyOf(ToolCard(Observed(d, obs, cfg))) == ToolKey(d.callId)
  {
    hide TruncateToRecent, BoundFiles;
  }

  lemma EndedTool(d: ToolCardData, success: bool, cfg: Config)
    ensures var now, was := Shown(ToolCard(d.(running := false, success := Some(success))), cfg),
                            Shown(ToolCard(d), cfg);
            && now.ToolCard? && was.ToolCard?
            && !now.tool.running && now.tool.success == Some(success) && now.tool.summary == was.tool.summary
  {
    hide TruncateToRecent, BoundFiles;
  }

  lemma ObservationShows(s: State, obs: Observation, x: nat, running: bool, success: Option<bool>, summary: string,
                         cfg: Config)
    requires Inv(s) && x < s.nextId
    requires CallShows(RowsOf(s, ToolKey(obs.callId), cfg), x, running, success, summary)
    ensures var t := ApplyObservation(s, obs, cfg);
            && t.nextId >= s.nextId
            && CallShows(RowsOf(t, ToolKey(obs.callId), cfg), x, running, Some(obs.success),
                         TruncateToRecent(obs.summary, CardLimit(cfg)))
  {
    hide Inv, Rows, FindCard, ReplaceCard, Observed, Shown, TruncateToRecent, KeyOf;
    var key, i := ToolKey(obs.callId), FindCard(s.messages, ToolKey(obs.callId));
    LastRow(s.messages, key, cfg);
    if i.Some? {
      CardIsTool(s.messages[i.value].variant.card, obs.callId);
      var d := s.messages[i.value].variant.card.tool;
      var card := ToolCard(Observed(d, obs, cfg));
      ObservedTool(d, obs, cfg);
      ReplacedRows(s, key, card, cfg);
      ReplacedInputs(s, key, card);
      var t := ReplaceCard(s, key, card);
      if HasRow(RowsOf(t, key, cfg), x) {
        SameIds(RowsOf(s, key, cfg), Row(s.messages[i.value].id, Shown(card, cfg)), x);
      }
    } else {
      var d := ToolCardData(obs.callId, obs.toolName, obs.action, None, None, "", "", false, None, "", "", [], None);
      PushedRows(s, ToolCard(Observed(d, obs, cfg)), key, cfg);
    }
  }

  lemma CardIsTool(card: Card, callId: string)
    requires KeyOf(card) == ToolKey(callId)
    ensures card.ToolCard? && card.tool.callId == callId
  {
  }

  lemma PushedRows(s: State, card: Card, key: CardKey, cfg: Config)
    ensures var t := Push(s, CardMessage(card));
            RowsOf(t, key, cfg) == RowsOf(s, key, cfg) +
                                   if KeyOf(card) == key then [Row(s.nextId, Shown(card, cfg))] else []
  {
    hide Shown, KeyOf;
    var new_ := Stamp([CardMessage(card)], s.currentTurn, s.nextId);
    RowsConcat(s.messages, new_, key, cfg);
    assert new_[1..] == [];
  }

  lemma EndShows(s: State, callId: string, ok: bool, x: nat, running: bool, success: Option<bool>, summary: string,
                 cfg: Config)
    requires CallShows(RowsOf(s, ToolKey(callId), cfg), x, running, success, summary)
    ensures var t := FinishToolCall(s, callId, ok);
            && t.nextId == s.nextId && callId !in t.toolInputs
            && CallShows(RowsOf(t, ToolKey(callId), cfg), x, false, Some(ok), summary)
  {
    hide Rows, FindCard, ReplaceCard, Shown, KeyOf, WithoutKey;
    var key, s1 := ToolKey(callId), RemoveToolInput(s, callId);
    var i := FindCard(s1.messages, key);
    LastRow(s1.messages, key, cfg);
    if i.Some? {
      CardIsTool(s1.messages[i.value].variant.card, callId);
      var d := s1.messages[i.value].variant.card.tool;
      var card := ToolCard(d.(running := false, success := Some(ok)));
      EndedTool(d, ok, cfg);
      ToolKeyOf(card);
      ReplacedRows(s1, key, card, cfg);
      ReplacedInputs(s1, key, card);
      if HasRow(RowsOf(ReplaceCard(s1, key, card), key, cfg), x) {
        SameIds(RowsOf(s1, key, cfg), Row(s1.messages[i.value].id, Shown(card, cfg)), x);
      }
    }
  }

  lemma ToolKeyOf(card: Card)
    requires card.ToolCard?
    ensures KeyOf(card) == ToolKey(card.tool.callId)
  {
  }

  lemma ReplacedInputs(s: State, key: CardKey, card: Card)
    ensures var t := ReplaceCard(s, key, card); t.toolInputs == s.toolInputs && t.nextId == s.nextId
  {
  }

  // ----- the same through whole events -----

  lemma CheckShows(s: State, key: CardKey, x: nat, cfg: Config)
    requires Inv(s)
    ensures var t := EnforceBudget(s, cfg);
            && t.nextId == s.nextId && Inv(t)
            && (forall running, success, summary ::
                  CallShows(RowsOf(s, key, cfg), x, running, success, summary) ==>
                  CallShows(RowsOf(t, key, cfg), x, running, success, summary))
            && (forall status :: RequestShows(RowsOf(s, key, cfg), x, status) ==>
                                 RequestShows(RowsOf(t, key, cfg), x, status))
  {
    hide Inv, EnforceBudget, CallShows, RequestShows, RowsOf, Leaving;
    CheckedRows(s, key, cfg);
    EnforceKeeps(s, cfg);
    ShowsLeft(RowsOf(s, key, cfg), Leaving(s, cfg), x);
  }

  lemma SeenShows(s: State, e: Event, x: nat, running: bool, success: Option<bool>, summary: string, cfg: Config)
    requires Inv(s) && x < s.nextId && e.ObservationAdded?
    requires CallShows(RowsOf(s, ToolKey(e.observation.callId), cfg), x, running, success, summary)
    ensures var t, obs := Apply(s, e, cfg), e.observation;
            && Inv(t) && t.nextId >= s.nextId
            && CallShows(RowsOf(t, ToolKey(obs.callId), cfg), x, running, Some(obs.success),
                         TruncateToRecent(obs.summary, CardLimit(cfg)))
  {
    hide Inv, EnforceBudget, CallShows, RowsOf, Recorded, EnterTurn, ApplyObservation, TruncateToRecent;
    var key, u := ToolKey(e.observation.callId), Recorded(EnterTurn(s, e.turnId), e, cfg);
    AppliedIs(s, e, key, cfg);
    ObservationShows(u, e.observation, x, running, success, summary, cfg);
    CheckShows(ApplyObservation(u, e.observation, cfg), key, x, cfg);
  }

  lemma {:induction false} EvictInputs(s: State, cfg: Config)
    ensures Evict(s, cfg).toolInputs.Keys <= s.toolInputs.Keys
    decreases |s.messages|
  {
    hide OverBudget, Victim;
    if s.messages != [] && OverBudget(s.messages, cfg) {
      RemovalInputs(s, Victim(s));
      EvictInputs(RemoveMessage(s, Victim(s)), cfg);
    }
  }

  lemma RemovalInputs(s: State, v: nat)
    requires v < |s.messages|
    ensures RemoveMessage(s, v).toolInputs.Keys <= s.toolInputs.Keys
    ensures |RemoveMessage(s, v).messages| < |s.messages|
  {
    hide WithoutKey;
  }

  lemma CheckedInputs(s: State, callId: string, cfg: Config)
    requires callId !in s.toolInputs
    ensures callId !in EnforceBudget(s, cfg).toolInputs
  {
    hide Evict;
    EvictInputs(s.(messages := TruncateAll(s.messages, cfg.maxFieldBytes)), cfg);
  }

  lemma EndedShows(s: State, e: Event, x: nat, running: bool, success: Option<bool>, summary: string, cfg: Config)
    requires Inv(s) && e.ToolCallFinished?
    requires CallShows(RowsOf(s, ToolKey(e.callId), cfg), x, running, success, summary)
    ensures var t := Apply(s, e, cfg);
            && Inv(t) && t.nextId >= s.nextId && e.callId !in t.toolInputs
            && CallShows(RowsOf(t, ToolKey(e.callId), cfg), x, false, Some(e.success), summary)
  {
    hide Inv, EnforceBudget, CallShows, RowsOf, Recorded, EnterTurn, FinishToolCall;
    var key, u := ToolKey(e.callId), Recorded(EnterTurn(s, e.turnId), e, cfg);
    AppliedIs(s, e, key, cfg);
    EndShows(u, e.callId, e.success, x, running, success, summary, cfg);
    CheckShows(FinishToolCall(u, e.callId, e.success), key, x, cfg);
    CheckedInputs(FinishToolCall(u, e.callId, e.success), e.callId, cfg);
  }

  /** The card a tool call starts with. */
  function StartedCard(e: Event, cfg: Config): Card
    requires e.ToolCallStarted?
  {
    ToolCard(BoundTool(ToolCardData(e.callId, e.toolName, e.action, None, None, e.arguments.summary, e.arguments.json,
                                    true, None, "", "", [], None), CardLimit(cfg)))
  }

  lemma StartedRuns(e: Event, cfg: Config)
    requires e.ToolCallStarted?
    ensures var card := StartedCard(e, cfg);
            && card.ToolCard? && KeyOf(card) == ToolKey(e.callId) && Unfinished(card) && Shown(card, cfg) == card
            && card.tool.running && card.tool.success.None? && card.tool.summary == ""
  {
    hide TruncateToRecent, BoundFiles;
    ToolAgain(ToolCardData(e.callId, e.toolName, e.action, None, None, e.arguments.summary, e.arguments.json,
                           true, None, "", "", [], None), CardLimit(cfg));
    EmptyStays(CardLimit(cfg));
  }

  lemma EmptyStays(max: nat)
    ensures TruncateToRecent("", max) == ""
  {
    assert Bytes("") == 0;
  }

  lemma {:induction false} TrimInputsDeferred(s: State)
    ensures TrimToolInputs(s).deferred == s.deferred
    decreases |s.toolInputOrder|
  {
    if |s.toolInputOrder| > MAX_CACHED_TOOL_INPUTS {
      TrimInputsDeferred(s.(toolInputs := s.toolInputs - {s.toolInputOrder[0]},
                            toolInputOrder := s.toolInputOrder[1..]));
    }
  }

  lemma CachedDeferred(s: State, callId: string, arguments: Arguments)
    ensures CacheToolInput(s, callId, arguments).deferred == s.deferred
  {
    hide WithoutKey;
    var s1 := RemoveToolInput(s, callId);
    TrimInputsDeferred(s1.(toolInputs := s1.toolInputs[callId := arguments],
                           toolInputOrder := s1.toolInputOrder + [callId]));
  }

  /** A call's start before the budget check: the card behind all messages. */
  lemma StartIs(s: State, e: Event, cfg: Config) returns (u: State)
    requires e.ToolCallStarted?
    ensures u.deferred == s.deferred && u.nextId >= s.nextId
    ensures Reduce(s, e, cfg) == Push(u, CardMessage(StartedCard(e, cfg)))
    ensures Inv(s) ==> Frames(s, u, ToolKey(e.callId), cfg)
  {
    hide Inv, Frames, CloseSegment, FinishStatus, CacheToolInput, Push, BoundTool;
    var s1 := CloseSegment(FinishStatus(s), cfg);
    u := CacheToolInput(s1, e.callId, e.arguments);
    SettledAround(s, cfg);
    CacheRows(s1, e.callId, e.arguments);
    CachedDeferred(s1, e.callId, e.arguments);
    if Inv(s) {
      FramesSettled(s, ToolKey(e.callId), cfg);
      FramesCached(s, s1, u, ToolKey(e.callId), cfg);
    }
  }

  lemma FramesCached(s: State, t: State, u: State, key: CardKey, cfg: Config)
    requires Frames(s, t, key, cfg) && SameRows(t, u)
    ensures Frames(s, u, key, cfg)
  {
  }

  lemma NewShows(rows: seq<Row>, x: nat, card: Card)
    requires card.ToolCard? && card.tool.running && card.tool.success.None? && card.tool.summary == ""
    ensures CallShows(rows + [Row(x, card)], x, true, None, "")
  {
  }

  lemma StartShows(s: State, e: Event, cfg: Config) returns (x: nat)
    requires Inv(s) && e.ToolCallStarted?
    ensures var t, card := Apply(s, e, cfg), StartedCard(e, cfg);
            && Inv(t) && s.nextId <= x < t.nextId
            && CallShows(RowsOf(t, ToolKey(e.callId), cfg), x, true, None, "")
            && if RoomFor(s, card, cfg) then AtTheEnd(t.messages, x, card) else t.messages == []
  {
    hide Inv, EnforceBudget, CallShows, Rows, StartedCard, AtTheEnd, PushToolCall, Unfinished, KeyOf, Shown;
    var key, card, s1 := ToolKey(e.callId), StartedCard(e, cfg), EnterTurn(s, e.turnId);
    AppliedIs(s, e, key, cfg);
    StartedRuns(e, cfg);
    var u := StartIs(s1, e, cfg);
    x := u.nextId;
    var t := Push(u, CardMessage(card));
    PushedRows(u, card, key, cfg);
    NewShows(RowsOf(u, key, cfg), x, card);
    CheckShows(t, key, x, cfg);
    PushedStaysIff(u, card, cfg);
  }

  /** The last card of the key is that of message x; it ended with that outcome and summary. */
  ghost predicate EndedOn(ms: seq<Message>, callId: string, x: nat, success: bool, summary: string, cfg: Config) {
    var i := FindCard(ms, ToolKey(callId));
    && i.Some? && ms[i.value].id == x
    && var d := ms[i.value].variant.card.tool;
       && !d.running && d.success == Some(success)
       && TruncateToRecent(d.summary, CardLimit(cfg)) == TruncateToRecent(summary, CardLimit(cfg))
  }

  lemma ShownEnded(s: State, callId: string, x: nat, success: bool, summary: string, cfg: Config)
    requires CallShows(RowsOf(s, ToolKey(callId), cfg), x, false, Some(success),
                       TruncateToRecent(summary, CardLimit(cfg)))
    requires HasCard(s.messages, ToolKey(callId), x)
    ensures EndedOn(s.messages, callId, x, success, summary, cfg)
  {
    hide FindCard, Rows, TruncateToRecent, BoundFiles, HasCard;
    CardHasRow(s.messages, ToolKey(callId), x, cfg);
    LastRow(s.messages, ToolKey(callId), cfg);
  }

  /**
   A call is started, observed and ended, with any run of other actions in between and
   afterwards. The start opens a new card, which is there exactly when the budget has
   room for it alone; as long as that card is there in the end, it is the last of the
   call, it does not run, and it shows the outcome of the end and the observed summary
   within the field limits. The end leaves no cached input.
   */
  lemma ToolCallLifecycle(s: State, start: Event, between: seq<Action>, seen: Event, after: seq<Action>, end: Event,
                          later: seq<Action>, cfg: Config) returns (x: nat)
    requires Inv(s) && start.ToolCallStarted? && seen.ObservationAdded? && end.ToolCallFinished?
    requires seen.observation.callId == start.callId && end.callId == start.callId
    requires Apart(between, ToolKey(start.callId)) && Apart(after, ToolKey(start.callId))
    requires Apart(later, ToolKey(start.callId))
    ensures var card, begun := StartedCard(start, cfg), Apply(s, start, cfg);
            && s.nextId <= x < begun.nextId
            && if RoomFor(s, card, cfg) then AtTheEnd(begun.messages, x, card) else begun.messages == []
    ensures var observed := Apply(RunFrom(Apply(s, start, cfg), between, cfg), seen, cfg);
            var ended := Apply(RunFrom(observed, after, cfg), end, cfg);
            var t := RunFrom(ended, later, cfg);
            && start.callId !in ended.toolInputs
            && (HasCard(t.messages, ToolKey(start.callId), x) ==>
                  EndedOn(t.messages, start.callId, x, end.success, seen.observation.summary, cfg))
  {
    hide Inv, Apply, RunFrom, CallShows, RequestShows, Rows, HasCard, EndedOn, TruncateToRecent, StartedCard, Apart,
         AtTheEnd;
    var key, callId := ToolKey(start.callId), start.callId;
    var shown := TruncateToRecent(seen.observation.summary, CardLimit(cfg));
    x := StartShows(s, start, cfg);
    var begun := Apply(s, start, cfg);
    ShowsThrough(begun, between, key, x, cfg);
    SeenShows(RunFrom(begun, between, cfg), seen, x, true, None, "", cfg);
    var observed := Apply(RunFrom(begun, between, cfg), seen, cfg);
    ShowsThrough(observed, after, key, x, cfg);
    EndedShows(RunFrom(observed, after, cfg), end, x, true, Some(seen.observation.success), shown, cfg);
    var ended := Apply(RunFrom(observed, after, cfg), end, cfg);
    ShowsThrough(ended, later, key, x, cfg);
    var t := RunFrom(ended, later, cfg);
    if HasCard(t.messages, key, x) {
      ShownEnded(t, callId, x, end.success, seen.observation.summary, cfg);
    }
  }

  // ----- questions -----

  function AskedCall(e: Event): string
    requires e.NeedUserInput?
  {
    if e.pendingCallId.Some? then e.pendingCallId.value else ""
  }

  /** The card a question is asked on. */
  function QuestionCard(s: State, e: Event, cfg: Config): Card
    requires e.NeedUserInput?
  {
    var input := ConfirmInput(FinishStatus(s), e.pendingCallId, e.requestedArguments);
    ConfirmCard(BoundConfirm(ConfirmData(AskedCall(e),
                                         if e.requestedTool.Some? then e.requestedTool.value else "unknown",
                                         e.pendingCalls, input.0, input.1, e.question, Pending), CardLimit(cfg)))
  }

  lemma QuestionWaits(s: State, e: Event, cfg: Config)
    requires e.NeedUserInput?
    ensures var card := QuestionCard(s, e, cfg);
            && KeyOf(card) == ConfirmKey(AskedCall(e)) && Unfinished(card) && Shown(card, cfg) == card
            && DecisionOf(card) == Some(Pending)
  {
    hide TruncateToRecent, BoundItems, ConfirmInput, FinishStatus;
    var input := ConfirmInput(FinishStatus(s), e.pendingCallId, e.requestedArguments);
    ConfirmAgain(ConfirmData(AskedCall(e), if e.requestedTool.Some? then e.requestedTool.value else "unknown",
                             e.pendingCalls, input.0, input.1, e.question, Pending), CardLimit(cfg));
  }

  /** The question depends on the messages only. */
  lemma SameQuestion(s: State, u: State, e: Event, cfg: Config)
    requires e.NeedUserInput? && u.messages == s.messages && u.activeStatusId == s.activeStatusId
    ensures QuestionCard(u, e, cfg) == QuestionCard(s, e, cfg)
  {
    hide WithoutId, BoundConfirm, FindCard;
  }

  lemma QuestionIs(s: State, e: Event, cfg: Config)
    requires e.NeedUserInput?
    ensures Reduce(s, e, cfg) == EnforceBudget(Push(FinishStatus(s), CardMessage(QuestionCard(s, e, cfg))), cfg)
  {
    hide FinishStatus, EnforceBudget, Push, BoundConfirm, ConfirmInput;
  }

  lemma EnteredAround(s: State, e: Event, cfg: Config)
    ensures var u := Recorded(EnterTurn(s, e.turnId), e, cfg);
            && u.messages == s.messages && u.activeStatusId == s.activeStatusId && u.nextId == s.nextId
            && u.deferred == s.deferred
  {
    hide Recorded;
    RecordedRows(EnterTurn(s, e.turnId), e, cfg);
    RecordedDeferred(EnterTurn(s, e.turnId), e, cfg);
  }

  lemma FinishAround(s: State)
    ensures FinishStatus(s).nextId == s.nextId && FinishStatus(s).deferred == s.deferred
  {
  }

  lemma AskShows(rows: seq<Row>, x: nat, card: Card)
    requires DecisionOf(card) == Some(Pending)
    ensures RequestShows(rows + [Row(x, card)], x, Pending)
  {
  }

  lemma QuestionShows(s: State, e: Event, cfg: Config)
    requires Inv(s) && e.NeedUserInput? && !Repeats(EnterTurn(s, e.turnId), e, cfg)
    ensures var t, card := Apply(s, e, cfg), QuestionCard(s, e, cfg);
            && Inv(t) && s.nextId < t.nextId
            && RequestShows(RowsOf(t, ConfirmKey(AskedCall(e)), cfg), s.nextId, Pending)
            && if RoomFor(s, card, cfg) then AtTheEnd(t.messages, s.nextId, card) else t.messages == []
  {
    hide Inv, EnforceBudget, RequestShows, Rows, QuestionCard, AtTheEnd, Reduce, Unfinished, KeyOf, Shown, Recorded,
         EnterTurn, Repeats, FinishStatus, Push;
    var key, card, u := ConfirmKey(AskedCall(e)), QuestionCard(s, e, cfg), Recorded(EnterTurn(s, e.turnId), e, cfg);
    AppliedIs(s, e, key, cfg);
    EnteredAround(s, e, cfg);
    SameQuestion(s, u, e, cfg);
    QuestionIs(u, e, cfg);
    QuestionWaits(s, e, cfg);
    FinishStatusKeeps(u);
    FinishAround(u);
    var v := FinishStatus(u);
    PushKeeps(v, CardMessage(card));
    EnforceTwice(Push(v, CardMessage(card)), cfg);
    PushedRows(v, card, key, cfg);
    PushedNext(v, CardMessage(card));
    AskShows(RowsOf(v, key, cfg), s.nextId, card);
    CheckShows(Push(v, CardMessage(card)), key, s.nextId, cfg);
    PushedStaysIff(v, card, cfg);
  }

  lemma QuestionPends(s: State, asked: State, e: Event, cfg: Config)
    requires e.NeedUserInput?
    requires var card := QuestionCard(s, e, cfg);
             if RoomFor(s, card, cfg) then AtTheEnd(asked.messages, s.nextId, card) else asked.messages == []
    ensures HasPendingConfirm(asked, AskedCall(e)) <==> RoomFor(s, QuestionCard(s, e, cfg), cfg)
  {
    hide QuestionCard, RoomFor, AtTheEnd, Shown;
    var card := QuestionCard(s, e, cfg);
    QuestionWaits(s, e, cfg);
    if RoomFor(s, card, cfg) {
      EndIsFound(asked.messages, s.nextId, card);
      EndIs(asked.messages, s.nextId, card);
    }
  }

  lemma EndIs(ms: seq<Message>, id: nat, card: Card)
    requires AtTheEnd(ms, id, card)
    ensures ms != [] && ms[|ms| - 1].variant == CardOf(card)
  {
  }

  lemma PushedNext(s: State, m: Message)
    ensures Push(s, m).nextId == s.nextId + 1
  {
  }

  lemma DecidedShows(rows: seq<Row>, row: Row, x: nat, was: Decision, status: Decision)
    requires rows != [] && row.id == rows[|rows| - 1].id && DecisionOf(row.card) == Some(status)
    requires RequestShows(rows, x, was)
    ensures RequestShows(rows[|rows| - 1 := row], x, status)
  {
    if HasRow(rows[|rows| - 1 := row], x) {
      SameIds(rows, row, x);
    }
  }

  lemma ResolutionShows(s: State, callId: string, approved: bool, x: nat, was: Decision, cfg: Config)
    requires Inv(s) && RequestShows(RowsOf(s, ConfirmKey(callId), cfg), x, was)
    ensures RequestShows(RowsOf(ResolveConfirm(s, callId, approved, cfg), ConfirmKey(callId), cfg), x,
                         if approved then Approved else Rejected)
    ensures ResolveConfirm(s, callId, approved, cfg).nextId == s.nextId
  {
    hide Inv, EnforceBudget, Rows, FindCard, ReplaceCard, Leaving, Resolved, RequestShows;
    var key, status := ConfirmKey(callId), if approved then Approved else Rejected;
    LastRow(s.messages, key, cfg);
    if FindCard(s.messages, key).Some? {
      var row := ResolvedRows(s, callId, approved, cfg);
      var rows := RowsOf(s, key, cfg);
      DecidedShows(rows, row, x, was, status);
      ShowsLeft(rows[|rows| - 1 := row], Leaving(Resolved(s, callId, approved), cfg), x);
      ResolveIs(s, callId, approved, cfg);
      CheckedNext(Resolved(s, callId, approved), cfg);
      ResolvedNext(s, callId, approved);
    } else {
      NoRequest(x, status);
    }
  }

  lemma ResolvedNext(s: State, callId: string, approved: bool)
    requires FindCard(s.messages, ConfirmKey(callId)).Some?
    ensures Resolved(s, callId, approved).nextId == s.nextId
  {
  }

  lemma NoRequest(x: nat, status: Decision)
    ensures RequestShows([], x, status)
  {
  }

  lemma AnswerShows(s: State, e: Event, x: nat, was: Decision, cfg: Config)
    requires Inv(s) && e.ToolApprovalResolved? && RequestShows(RowsOf(s, ConfirmKey(e.callId), cfg), x, was)
    ensures var t := Apply(s, e, cfg);
            && Inv(t) && t.nextId >= s.nextId
            && RequestShows(RowsOf(t, ConfirmKey(e.callId), cfg), x, if e.approved then Approved else Rejected)
  {
    hide Inv, EnforceBudget, RequestShows, RowsOf, Recorded, EnterTurn, ResolveConfirm;
    var key, u := ConfirmKey(e.callId), Recorded(EnterTurn(s, e.turnId), e, cfg);
    AppliedIs(s, e, key, cfg);
    ResolutionShows(u, e.callId, e.approved, x, was, cfg);
    CheckShows(ResolveConfirm(u, e.callId, e.approved, cfg), key, x, cfg);
  }

  /** The last card of the call is that of message x and shows the decision. */
  ghost predicate DecidedOn(ms: seq<Message>, callId: string, x: nat, status: Decision) {
    var i := FindCard(ms, ConfirmKey(callId));
    i.Some? && ms[i.value].id == x && ms[i.value].variant.card.confirm.status == status
  }

  lemma ShownDecided(s: State, callId: string, x: nat, status: Decision, cfg: Config)
    requires RequestShows(RowsOf(s, ConfirmKey(callId), cfg), x, status)
    requires HasCard(s.messages, ConfirmKey(callId), x)
    ensures DecidedOn(s.messages, callId, x, status)
  {
    hide FindCard, Rows, BoundCard, HasCard;
    CardHasRow(s.messages, ConfirmKey(callId), x, cfg);
    LastRow(s.messages, ConfirmKey(callId), cfg);
    var i := FindCard(s.messages, ConfirmKey(callId));
    if i.Some? {
      KeyStays(s.messages[i.value].variant.card, CardLimit(cfg));
    }
  }

  /**
   A question is asked and answered, with any run of other actions in between and
   afterwards. It opens a new card, which is there, and its call pending, exactly when
   the budget has room for it alone; as long as that card is there it is the last of its call, pending until
   the answer and with the answer's decision from then on.
   */
  lemma QuestionLifecycle(s: State, ask: Event, between: seq<Action>, answer: Event, later: seq<Action>, cfg: Config)
    requires Inv(s) && ask.NeedUserInput? && answer.ToolApprovalResolved? && answer.callId == AskedCall(ask)
    requires !Repeats(EnterTurn(s, ask.turnId), ask, cfg)
    requires Apart(between, ConfirmKey(answer.callId)) && Apart(later, ConfirmKey(answer.callId))
    ensures var card, asked := QuestionCard(s, ask, cfg), Apply(s, ask, cfg);
            && (HasPendingConfirm(asked, answer.callId) <==> RoomFor(s, card, cfg))
            && if RoomFor(s, card, cfg) then AtTheEnd(asked.messages, s.nextId, card) else asked.messages == []
    ensures var u := RunFrom(Apply(s, ask, cfg), between, cfg);
            var t := RunFrom(Apply(u, answer, cfg), later, cfg);
            && (HasCard(u.messages, ConfirmKey(answer.callId), s.nextId) ==>
                  DecidedOn(u.messages, answer.callId, s.nextId, Pending))
            && (HasCard(t.messages, ConfirmKey(answer.callId), s.nextId) ==>
                  DecidedOn(t.messages, answer.callId, s.nextId, if answer.approved then Approved else Rejected))
  {
    hide Inv, Apply, RunFrom, CallShows, RequestShows, Rows, HasCard, DecidedOn, QuestionCard, Apart, AtTheEnd,
         HasPendingConfirm, RoomFor;
    var key, x, status := ConfirmKey(answer.callId), s.nextId, if answer.approved then Approved else Rejected;
    QuestionShows(s, ask, cfg);
    var asked := Apply(s, ask, cfg);
    QuestionPends(s, asked, ask, cfg);
    ShowsThrough(asked, between, key, x, cfg);
    var u := RunFrom(asked, between, cfg);
    if HasCard(u.messages, key, x) {
      ShownDecided(u, answer.callId, x, Pending, cfg);
    }
    AnswerShows(u, answer, x, Pending, cfg);
    ShowsThrough(Apply(u, answer, cfg), later, key, x, cfg);
    var t := RunFrom(Apply(u, answer, cfg), later, cfg);
    if HasCard(t.messages, key, x) {
      ShownDecided(t, answer.callId, x, status, cfg);
    }
  }
}
