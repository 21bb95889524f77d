/**
 What single operations of the transcript leave behind: the messages of a final
 text spell it, an observation touches its own card only, and repeated rows are one
 row.
 */
module TranscriptCards {
  import opened Basics
  import opened BoundedText
  import opened FencedBlocks
  import opened TranscriptState
  import opened TranscriptInvariant
  import opened TranscriptBudget
  import opened TranscriptStream

  // ----- one message changes -----

  /** Only message i differs, by its new content; or it was added behind all others. */
  ghost predicate OnlyAt(before: seq<Message>, after: seq<Message>, i: nat) {
    && i < |after| && |after| == Max(|before|, i + 1) && i <= |before|
    && (forall j :: 0 <= j < |before| && j != i ==> after[j] == before[j])
    && (i < |before| ==> after[i] == before[i].(variant := after[i].variant))
  }

  /** The last card of that key is at i. */
  ghost predicate LastCardAt(ms: seq<Message>, key: CardKey, i: nat) {
    && i < |ms| && ms[i].variant.CardOf? && KeyOf(ms[i].variant.card) == key
    && forall j :: i < j < |ms| && ms[j].variant.CardOf? ==> KeyOf(ms[j].variant.card) != key
  }

  lemma {:induction false} FoundIsLast(ms: seq<Message>, key: CardKey)
    ensures var i := FindCard(ms, key);
            && (i.Some? ==> LastCardAt(ms, key, i.value))
            && (i.None? ==> forall j :: 0 <= j < |ms| && ms[j].variant.CardOf? ==> KeyOf(ms[j].variant.card) != key)
  {
    if ms != [] {
      FoundIsLast(ms[..|ms| - 1], key);
    }
  }

  lemma LastIsFound(ms: seq<Message>, key: CardKey, i: nat)
    requires LastCardAt(ms, key, i)
    ensures FindCard(ms, key) == Some(i)
  {
    FoundIsLast(ms, key);
  }

  lemma ReplacedCard(s: State, key: CardKey, card: Card)
    requires KeyOf(card) == key && FindCard(s.messages, key).Some?
    ensures var i, t := FindCard(s.messages, key).value, ReplaceCard(s, key, card);
            && OnlyAt(s.messages, t.messages, i) && LastCardAt(t.messages, key, i)
            && t.messages[i].variant == CardOf(card) && t == s.(messages := t.messages)
  {
    FoundIsLast(s.messages, key);
  }

  lemma PushedCard(s: State, card: Card)
    ensures var t := Push(s, CardMessage(card));
            && OnlyAt(s.messages, t.messages, |s.messages|) && LastCardAt(t.messages, KeyOf(card), |s.messages|)
            && t.messages[|s.messages|].variant == CardOf(card) && t.messages[..|s.messages|] == s.messages
            && t == s.(messages := t.messages, nextId := s.nextId + 1)
  {
  }

  // ----- the final text -----

  /** The piece of text a message shows. */
  function PieceOf(m: Message): Piece {
    if m.variant.CardOf? && m.variant.card.ChartCard? then ChartPiece(m.variant.card.code) else TextPiece(m.content)
  }

  /** A text row, or a chart without text. */
  predicate IsPieceRow(m: Message) {
    m.variant.Text? || (m.variant.CardOf? && m.variant.card.ChartCard? && m.content == "")
  }

  function PiecesOf(ms: seq<Message>): seq<Piece> {
    seq(|ms|, k requires 0 <= k < |ms| => PieceOf(ms[k]))
  }

  /** New, finished messages of the assistant: consecutive ids, the turn, and the reasoning on the first. */
  ghost predicate SaidInFull(ms: seq<Message>, turn: Option<string>, next: nat, reasoning: string) {
    && (forall k :: 0 <= k < |ms| ==> ms[k].id == next + k && ms[k].turn == turn)
    && (forall k :: 0 <= k < |ms| ==> ms[k].role == AssistantRole && !ms[k].isStreaming && IsPieceRow(ms[k]))
    && (forall k :: 0 <= k < |ms| ==> ms[k].reasoning == if k == 0 then reasoning else "")
  }

  lemma FinishedInFull(text: string, reasoning: Option<string>, turn: Option<string>, next: nat, cfg: Config)
    ensures var ms := Stamp(Finished(text, reasoning, cfg), turn, next);
            && ms != [] && PiecesOf(ms) == Pieces(text, cfg.isChart)
            && SaidInFull(ms, turn, next, if reasoning.Some? then reasoning.value else "")
  {
    hide Pieces, Finished;
    SomePiece(text, cfg.isChart);
    PiecesFinished(text, reasoning, cfg);
    var ms := Stamp(Finished(text, reasoning, cfg), turn, next);
    assert forall k :: 0 <= k < |ms| ==> PieceOf(ms[k]) == Pieces(text, cfg.isChart)[k];
  }

  lemma PiecesFinished(text: string, reasoning: Option<string>, cfg: Config)
    ensures var ms, pieces := Finished(text, reasoning, cfg), Pieces(text, cfg.isChart);
            && |ms| == |pieces| && (forall k :: 0 <= k < |ms| ==> PieceOf(ms[k]) == pieces[k])
            && (forall k :: 0 <= k < |ms| ==> ms[k].role == AssistantRole && !ms[k].isStreaming && IsPieceRow(ms[k]))
            && (forall k :: 0 <= k < |ms| ==>
                  ms[k].reasoning == if k == 0 && reasoning.Some? then reasoning.value else "")
  {
    hide Pieces;
  }

  /** The reasoning a final text keeps: its own, or that of the segment it ends. */
  function ReasoningKept(s: State, reasoning: Option<string>): string {
    if reasoning.Some? then reasoning.value else if Live(s).Some? then Live(s).value.reasoning else ""
  }

  /** Where the segment being written stands, or the end. */
  function SegmentPlace(s: State): nat {
    var i := PositionOf(s.messages, s.streamingId);
    if i.Some? then i.value else |s.messages|
  }

  /** The messages `new_` stand at i in `after`, instead of message i of `before`, or behind all of them. */
  ghost predicate StandsAt(before: seq<Message>, after: seq<Message>, i: nat, new_: seq<Message>) {
    && i <= |before| && after == before[..i] + new_ + before[Min(i + 1, |before|)..]
  }

  lemma FinalStands(s: State, text: string, reasoning: Option<string>, cfg: Config)
    returns (i: nat, kept: Option<string>)
    requires Inv(s)
    ensures var s1, t := FinishStatus(s), FinalizeAssistant(s, text, reasoning, cfg);
            && StandsAt(s1.messages, t.messages, i, Stamp(Finished(text, kept, cfg), s.currentTurn, s.nextId))
            && i == SegmentPlace(s1)
            && (if kept.Some? then kept.value else "") == ReasoningKept(s, reasoning) && t.streamingId.None?
  {
    hide Finished, WithoutId, Stamp, Position, Inv;
    FinishKeepsLive(s);
    var s1 := FinishStatus(s);
    i := SegmentPlace(s1);
    kept := if Live(s).Some? then Some(ReasoningKept(s, reasoning)) else reasoning;
  }

  /**
   A final text ends the segment being written. Where the segment stood, or behind
   everything, stand new finished messages that carry the current turn and spell the
   text: between them there is white space only, and at a chart the lines of its
   fence. The first one carries the reasoning, and no other message changes.
   */
  lemma FinalTextSpells(s: State, text: string, reasoning: Option<string>, cfg: Config)
    returns (i: nat, new_: seq<Message>, gaps: seq<Gap>, tail: string)
    requires Inv(s)
    ensures var before, t := FinishStatus(s).messages, FinalizeAssistant(s, text, reasoning, cfg);
            && StandsAt(before, t.messages, i, new_) && new_ != [] && t.streamingId.None?
            && i == SegmentPlace(FinishStatus(s))
            && SaidInFull(new_, s.currentTurn, s.nextId, ReasoningKept(s, reasoning))
    ensures |gaps| == |new_| && BlankGaps(gaps) && Blank(tail) && text == Lay(PiecesOf(new_), gaps) + tail
  {
    hide FinalizeAssistant, FinishStatus, Finished, StandsAt, SaidInFull, BlankGaps, Lay, Pieces, Live, ReasoningKept,
         Stamp, Inv, SegmentPlace, PieceOf;
    var kept;
    i, kept := FinalStands(s, text, reasoning, cfg);
    new_ := Stamp(Finished(text, kept, cfg), s.currentTurn, s.nextId);
    FinishedInFull(text, kept, s.currentTurn, s.nextId, cfg);
    gaps, tail := PiecesTile(text, cfg.isChart);
    assert |PiecesOf(new_)| == |new_|;
  }

  /**
   Closing a segment puts new finished messages of the current turn in its place, which
   spell its text as a final text would and carry its reasoning on the first. No other
   message changes.
   */
  lemma ClosedSegmentSpells(s: State, cfg: Config) returns (new_: seq<Message>, gaps: seq<Gap>, tail: string)
    requires Inv(s) && s.streamingId.Some?
    ensures var i, t := SegmentPlace(s), CloseSegment(s, cfg);
            && i < |s.messages| && s.streamingId == Some(s.messages[i].id)
            && StandsAt(s.messages, t.messages, i, new_) && new_ != [] && t.streamingId.None?
            && SaidInFull(new_, s.currentTurn, s.nextId, s.messages[i].reasoning)
            && |gaps| == |new_| && BlankGaps(gaps) && Blank(tail)
            && s.messages[i].content == Lay(PiecesOf(new_), gaps) + tail
  {
    hide Finished, SaidInFull, BlankGaps, Lay, Pieces, Stamp, PieceOf, HasTag;
    StreamingAt(s);
    var m := s.messages[SegmentPlace(s)];
    new_ := Stamp(Finished(m.content, Some(m.reasoning), cfg), s.currentTurn, s.nextId);
    FinishedInFull(m.content, Some(m.reasoning), s.currentTurn, s.nextId, cfg);
    gaps, tail := PiecesTile(m.content, cfg.isChart);
    assert |PiecesOf(new_)| == |new_|;
  }

  // ----- tool cards -----

  /** What an observation shows on a card that looked like `d`. */
  ghost predicate Shows(now: ToolCardData, d: ToolCardData, obs: Observation, cfg: Config) {
    && now.callId == d.callId && now.toolName == d.toolName && now.action == d.action && now.running == d.running
    && now.success == Some(obs.success) && now.summary == obs.summary
    && now.dataText <= obs.dataText && |now.dataText| == Min(|obs.dataText|, DataLimit(obs.toolName))
    && now.fileChanges <= obs.fileChanges && |now.fileChanges| == Min(|obs.fileChanges|, MAX_CARD_FILE_CHANGES)
    && (obs.fileChanges != [] ==> now.targetId == Some(obs.fileChanges[0].path))
    && (obs.fileChanges == [] ==> now.targetId == if obs.target.Some? then obs.target else obs.resourceId)
    && (obs.arguments.None? ==> now.inputSummary == d.inputSummary && now.inputJson == d.inputJson)
    && (obs.arguments.Some? ==>
          now.inputSummary == obs.arguments.value.summary && now.inputJson == obs.arguments.value.json)
    && (now.targetLabel.Some? <==> now.targetId.Some?)
    && (now.targetId.Some? && now.targetId.value in cfg.resourceLabels ==>
          now.targetLabel == Some(cfg.resourceLabels[now.targetId.value]))
    && (now.targetId.Some? && now.targetId.value !in cfg.resourceLabels ==> now.targetLabel == now.targetId)
    && (now.durationMs.Some? <==> obs.durationMs > 0)
    && (now.durationMs.Some? ==> now.durationMs.value == obs.durationMs)
  }

  lemma ObservedShows(d: ToolCardData, obs: Observation, cfg: Config)
    ensures Shows(Observed(d, obs, cfg), d, obs, cfg)
  {
  }

  /** The last card of the call is at i and shows d. */
  ghost predicate ToolAt(ms: seq<Message>, callId: string, i: nat, d: ToolCardData) {
    LastCardAt(ms, ToolKey(callId), i) && ms[i].variant == CardOf(ToolCard(d)) && d.callId == callId
  }

  lemma ToolIsFound(ms: seq<Message>, callId: string, i: nat, d: ToolCardData)
    requires ToolAt(ms, callId, i, d)
    ensures FindCard(ms, ToolKey(callId)) == Some(i)
  {
    LastIsFound(ms, ToolKey(callId), i);
  }

  lemma ReplacedTool(s: State, callId: string, i: nat, d: ToolCardData)
    requires FindCard(s.messages, ToolKey(callId)) == Some(i) && d.callId == callId
    ensures var t := ReplaceCard(s, ToolKey(callId), ToolCard(d));
            OnlyAt(s.messages, t.messages, i) && ToolAt(t.messages, callId, i, d) && t == s.(messages := t.messages)
  {
    ReplacedCard(s, ToolKey(callId), ToolCard(d));
  }

  lemma PushedTool(s: State, d: ToolCardData)
    ensures var t := Push(s, CardMessage(ToolCard(d)));
            && OnlyAt(s.messages, t.messages, |s.messages|) && ToolAt(t.messages, d.callId, |s.messages|, d)
            && t.messages != [] && t.messages[..|t.messages| - 1] == s.messages
            && t == s.(messages := t.messages, nextId := s.nextId + 1)
  {
    PushedCard(s, ToolCard(d));
  }

  /** An observation on the last card of its call changes that card only. */
  lemma ObservationLands(s: State, obs: Observation, i: nat, d: ToolCardData, cfg: Config)
    returns (now: ToolCardData)
    requires ToolAt(s.messages, obs.callId, i, d)
    ensures var t := ApplyObservation(s, obs, cfg);
            && OnlyAt(s.messages, t.messages, i) && ToolAt(t.messages, obs.callId, i, now)
            && Shows(now, d, obs, cfg) && t == s.(messages := t.messages)
  {
    hide OnlyAt, LastCardAt, Observed, Shows;
    ToolIsFound(s.messages, obs.callId, i, d);
    now := Observed(d, obs, cfg);
    ObservedShows(d, obs, cfg);
    assert now.callId == d.callId by { KeepsCall(d, obs, cfg); }
    ReplacedTool(s, obs.callId, i, now);
  }

  /** An observation of a call without a card adds one behind all messages, as the trace of a call that is over. */
  lemma ObservationRecreates(s: State, obs: Observation, cfg: Config) returns (now: ToolCardData)
    requires FindCard(s.messages, ToolKey(obs.callId)).None?
    ensures var t := ApplyObservation(s, obs, cfg);
            && OnlyAt(s.messages, t.messages, |s.messages|) && ToolAt(t.messages, obs.callId, |s.messages|, now)
            && Shows(now, ToolCardData(obs.callId, obs.toolName, obs.action, None, None, "", "", false, None, "", "",
                                       [], None), obs, cfg)
            && t == s.(messages := t.messages, nextId := s.nextId + 1)
  {
    hide OnlyAt, ToolAt, Observed, Push, Shows;
    var d := ToolCardData(obs.callId, obs.toolName, obs.action, None, None, "", "", false, None, "", "", [], None);
    now := Observed(d, obs, cfg);
    KeepsCall(d, obs, cfg);
    ObservedShows(d, obs, cfg);
    PushedTool(s, now);
  }

  lemma KeepsCall(d: ToolCardData, obs: Observation, cfg: Config)
    ensures var now := Observed(d, obs, cfg);
            now.callId == d.callId && now.running == d.running && now.success == Some(obs.success)
            && now.summary == obs.summary
  {
  }

  // ----- rows that are updated in place -----

  lemma FoundPosition(ms: seq<Message>, i: nat, m: Message)
    requires Distinct(ms) && i < |ms| && m.id == ms[i].id
    ensures Position(ms[i := m], m.id) == Some(i)
  {
    var after := ms[i := m];
    assert Distinct(after) by {
      assert forall j :: 0 <= j < |ms| ==> after[j].id == ms[j].id;
    }
    PositionIs(after, i);
  }

  lemma PushedPosition(s: State, m: Message)
    requires Inv(s)
    ensures Position(Push(s, m).messages, s.nextId) == Some(|s.messages|)
  {
    var after := Push(s, m).messages;
    Stamped(s.messages, [m], s.currentTurn, s.nextId);
    assert after[|s.messages|].id == s.nextId;
    PositionIs(after, |s.messages|);
  }

  lemma PushedThenPut(s: State, m: Message, put: Message)
    ensures var t := Push(s, m);
            var i := |s.messages|;
            && i < |t.messages|
            && t.messages[i := put.(id := s.nextId, turn := s.currentTurn)] == Push(s, put).messages
            && t.messages[i] == m.(id := s.nextId, turn := s.currentTurn)
  {
  }

  /** Two status changes in a row are the second one: one row, the last title. */
  lemma StatusIsOneRow(s: State, title: string, next: string, isDone: bool)
    requires Inv(s)
    ensures UpsertStatus(UpsertStatus(s, title, false), next, isDone) == UpsertStatus(s, next, isDone)
  {
    hide Inv;
    var t := UpsertStatus(s, title, false);
    var i := PositionOf(s.messages, s.activeStatusId);
    if i.Some? {
      assert Distinct(s.messages) by { IdsDiffer(s); }
      FoundPosition(s.messages, i.value, t.messages[i.value]);
    } else {
      StatusIsGone(s);
      PushedPosition(s, StatusMessage(title, false));
      PushedThenPut(s, StatusMessage(title, false), StatusMessage(next, isDone));
    }
  }

  lemma IdsDiffer(s: State)
    requires Inv(s)
    ensures Distinct(s.messages)
  {
  }

  lemma StatusIsGone(s: State)
    requires Inv(s) && PositionOf(s.messages, s.activeStatusId).None?
    ensures s.activeStatusId.None?
  {
  }

  /** Status changes one after another, none of them done. */
  function Titled(s: State, titles: seq<string>): State {
    if titles == [] then s else UpsertStatus(Titled(s, titles[..|titles| - 1]), titles[|titles| - 1], false)
  }

  /** However many status changes come in a row, the last one alone gives the same transcript. */
  lemma {:induction false} TitlesAreOneRow(s: State, titles: seq<string>, next: string, isDone: bool)
    requires Inv(s)
    ensures Inv(Titled(s, titles)) && UpsertStatus(Titled(s, titles), next, isDone) == UpsertStatus(s, next, isDone)
  {
    hide Inv, UpsertStatus;
    if titles != [] {
      var front, title := titles[..|titles| - 1], titles[|titles| - 1];
      TitlesAreOneRow(s, front, next, isDone);
      UpsertStatusKeeps(Titled(s, front), title, false);
      StatusIsOneRow(Titled(s, front), title, next, isDone);
    }
  }

  /** Two plans in a row within a turn are the second one. */
  lemma PlanIsOneRow(s: State, plan: PlanData, next: PlanData)
    requires Inv(s)
    ensures UpsertPlan(UpsertPlan(s, plan), next) == UpsertPlan(s, next)
  {
    hide Inv;
    var t := UpsertPlan(s, plan);
    var i := PositionOf(s.messages, s.planMessageId);
    if i.Some? {
      assert Distinct(s.messages) by { IdsDiffer(s); }
      FoundPosition(s.messages, i.value, t.messages[i.value]);
    } else {
      PushedPosition(s, CardMessage(PlanCard(plan)));
      PushedThenPut(s, CardMessage(PlanCard(plan)), CardMessage(PlanCard(next)));
    }
  }
}
