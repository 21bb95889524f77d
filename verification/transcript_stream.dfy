/**
 Streaming through the transcript: no text delta and no reasoning delta is lost,
 doubled or reordered by tool calls, plans, confirmations, statuses and turns in
 between.
 */
module TranscriptStream {
  import opened Basics
  import opened BoundedText
  import opened FencedBlocks
  import opened TranscriptState
  import opened TranscriptInvariant

  /** What one assistant text says and what it thinks. */
  datatype Speech = Speech(text: string, thought: string)

  const NOTHING := Speech("", "")

  function Plus(a: Speech, b: Speech): Speech {
    Speech(a.text + b.text, a.thought + b.thought)
  }

  /** An assistant's text message: what streaming writes to. */
  predicate IsSpeech(m: Message) {
    m.role.AssistantRole? && m.variant.Text?
  }

  function SpeechOf(m: Message): seq<Speech> {
    if IsSpeech(m) then [Speech(m.content, m.reasoning)] else []
  }

  /** The assistant texts with their reasoning, in order. */
  function Speeches(ms: seq<Message>): seq<Speech> {
    if ms == [] then [] else SpeechOf(ms[0]) + Speeches(ms[1..])
  }

  /** All text, and all reasoning, in order. */
  function Said(ps: seq<Speech>): Speech {
    if ps == [] then NOTHING else Plus(ps[0], Said(ps[1..]))
  }

  lemma {:induction false} SpeechesConcat(a: seq<Message>, b: seq<Message>)
    ensures Speeches(a + b) == Speeches(a) + Speeches(b)
  {
    hide SpeechOf;
    if a == [] {
      assert a + b == b;
    } else {
      SpeechesConcat(a[1..], b);
      PrefixSlices(a, b, 1);
      Associate(SpeechOf(a[0]), Speeches(a[1..]), Speeches(b));
    }
  }

  lemma SpeechesAround(a: seq<Message>, m: Message, b: seq<Message>)
    ensures Speeches(a + [m] + b) == Speeches(a) + SpeechOf(m) + Speeches(b)
  {
    SpeechesConcat(a + [m], b);
    SpeechesConcat(a, [m]);
    assert [m][1..] == [];
  }

  lemma {:induction false} Silence(ms: seq<Message>)
    requires forall i :: 0 <= i < |ms| ==> !IsSpeech(ms[i])
    ensures Speeches(ms) == []
  {
    if ms != [] {
      Silence(ms[1..]);
    }
  }

  lemma {:induction false} SpeechesAlike(a: seq<Message>, b: seq<Message>)
    requires |a| == |b| && forall i :: 0 <= i < |a| ==> SpeechOf(a[i]) == SpeechOf(b[i])
    ensures Speeches(a) == Speeches(b)
  {
    if a != [] {
      SpeechesAlike(a[1..], b[1..]);
    }
  }

  lemma {:induction false} SpeechIn(ms: seq<Message>, i: nat)
    requires i < |ms| && IsSpeech(ms[i])
    ensures Speech(ms[i].content, ms[i].reasoning) in Speeches(ms)
  {
    if i > 0 {
      SpeechIn(ms[1..], i - 1);
    }
  }

  lemma {:induction false} SaidSnoc(ps: seq<Speech>, p: Speech)
    ensures Said(ps + [p]) == Plus(Said(ps), p)
  {
    if ps == [] {
      assert ps + [p] == [p] && p.text + "" == p.text && p.thought + "" == p.thought;
      assert "" + p.text == p.text && "" + p.thought == p.thought;
    } else {
      SaidSnoc(ps[1..], p);
      assert (ps + [p])[1..] == ps[1..] + [p];
      Associate(ps[0].text, Said(ps[1..]).text, p.text);
      Associate(ps[0].thought, Said(ps[1..]).thought, p.thought);
    }
  }

  /** The segment being written is the last speech. */
  ghost predicate LastSpeech(ms: seq<Message>, id: Option<nat>) {
    forall i, j :: 0 <= i < j < |ms| && id == Some(ms[i].id) ==> !IsSpeech(ms[j])
  }

  /** Between two states the transcript said nothing new and lost nothing: the texts are the same, one by one. */
  ghost predicate Quiet(s: State, t: State) {
    && Speeches(t.messages) == Speeches(s.messages)
    && (LastSpeech(s.messages, s.streamingId) ==> LastSpeech(t.messages, t.streamingId))
  }

  // ----- quiet changes -----

  lemma QuietTrans(s: State, t: State, u: State)
    requires Quiet(s, t) && Quiet(t, u)
    ensures Quiet(s, u)
  {
    hide LastSpeech, Speeches;
  }

  lemma QuietRows(s: State, t: State)
    requires t.messages == s.messages && (t.streamingId == s.streamingId || t.streamingId.None?)
    ensures Quiet(s, t)
  {
  }

  lemma QuietUpdate(s: State, i: nat, m: Message)
    requires i < |s.messages| && m.id == s.messages[i].id
    requires SpeechOf(m) == SpeechOf(s.messages[i])
    ensures Quiet(s, s.(messages := s.messages[i := m]))
  {
    var ms := s.messages;
    var after := ms[i := m];
    SpeechesAlike(ms, after);
    assert forall k :: 0 <= k < |ms| ==> after[k].id == ms[k].id && IsSpeech(after[k]) == IsSpeech(ms[k]);
  }

  lemma QuietPush(s: State, m: Message)
    requires !IsSpeech(m)
    ensures Quiet(s, Push(s, m))
  {
    var new_ := Stamp([m], s.currentTurn, s.nextId);
    SpeechesConcat(s.messages, new_);
    Silence(new_);
  }

  lemma QuietCut(s: State, t: State, i: nat)
    requires i < |s.messages| && !IsSpeech(s.messages[i])
    requires t.messages == s.messages[..i] + s.messages[i + 1..] && t.streamingId == s.streamingId
    ensures Quiet(s, t)
  {
    hide Speeches;
    var a, b := s.messages[..i], s.messages[i + 1..];
    assert s.messages == a + [s.messages[i]] + b;
    SpeechesAround(a, s.messages[i], b);
    SpeechesConcat(a, b);
    assert Speeches(a) + [] == Speeches(a);
    assert forall k :: 0 <= k < |t.messages| ==> t.messages[k] == s.messages[if k < i then k else k + 1];
  }

  lemma QuietFinishStatus(s: State)
    requires Inv(s)
    ensures Quiet(s, FinishStatus(s))
  {
    if s.activeStatusId.Some? {
      WithoutIdCuts(s.messages, s.activeStatusId.value);
      var i := Position(s.messages, s.activeStatusId.value).value;
      OneTag(s.messages, i, LiveStatus);
      QuietCut(s, FinishStatus(s), i);
    }
  }

  lemma QuietReplaceCard(s: State, key: CardKey, card: Card)
    ensures Quiet(s, ReplaceCard(s, key, card))
  {
    var i := FindCard(s.messages, key);
    if i.Some? {
      QuietUpdate(s, i.value, s.messages[i.value].(variant := CardOf(card)));
    }
  }

  // ----- the segment being written -----

  function Live(s: State): Option<Message> {
    var i := PositionOf(s.messages, s.streamingId);
    if i.Some? then Some(s.messages[i.value]) else None
  }

  /** Dropping the status row leaves the segment. */
  lemma FinishKeepsLive(s: State)
    requires Inv(s)
    ensures Inv(FinishStatus(s)) && Live(FinishStatus(s)) == Live(s)
    ensures SegmentHasText(FinishStatus(s)) == SegmentHasText(s)
  {
    FinishStatusKeeps(s);
    if s.activeStatusId.Some? && s.streamingId.Some? {
      LiveIdsDiffer(s);
      CutKeepsLive(s, s.activeStatusId.value);
    }
  }

  /** Where the message at i is after message `cut` is gone. */
  lemma FoundAfterCut(ms: seq<Message>, i: nat, cut: nat)
    requires Distinct(ms) && i < |ms| && cut < |ms| && i != cut
    ensures var k := if i < cut then i else i - 1;
            var after := ms[..cut] + ms[cut + 1..];
            k < |after| && after[k] == ms[i] && Position(after, ms[i].id) == Some(k)
  {
    hide Position;
    var k := if i < cut then i else i - 1;
    var after := ms[..cut] + ms[cut + 1..];
    CutOut(ms, cut);
    assert after[k] == ms[i];
    PositionIs(after, k);
  }

  lemma CutKeepsLive(s: State, id: nat)
    requires Inv(s) && s.streamingId.Some? && s.streamingId != Some(id)
    ensures Live(s.(messages := WithoutId(s.messages, id))) == Live(s)
  {
    hide WithoutId, HasTag, Below, Position;
    var ms, after := s.messages, WithoutId(s.messages, id);
    StreamingAt(s);
    WithoutIdCuts(ms, id);
    var i := Position(ms, s.streamingId.value).value;
    var cut := Position(ms, id);
    if cut.Some? {
      FoundAfterCut(ms, i, cut.value);
    }
  }

  /** The segment being written holds no chart block. */
  predicate WholeLive(s: State, cfg: Config) {
    Live(s).Some? ==> !HasChart(Blocks(Live(s).value.content, 0), cfg.isChart)
  }

  /** A text without charts stays one message. */
  lemma FinishedWhole(text: string, reasoning: string, cfg: Config)
    requires !HasChart(Blocks(text, 0), cfg.isChart)
    ensures Finished(text, Some(reasoning), cfg) == [AssistantMessageOf(text).(reasoning := reasoning)]
  {
    assert Pieces(text, cfg.isChart) == [TextPiece(text)];
  }

  lemma QuietClose(s: State, cfg: Config)
    requires Inv(s) && WholeLive(s, cfg)
    ensures Quiet(s, CloseSegment(s, cfg))
  {
    hide Pieces, Finished, HasChart, Blocks;
    var i := PositionOf(s.messages, s.streamingId);
    StreamingAt(s);
    if i.Some? {
      var m := s.messages[i.value];
      FinishedWhole(m.content, m.reasoning, cfg);
      QuietReplaceBy(s, i.value, AssistantMessageOf(m.content).(reasoning := m.reasoning));
    }
  }

  /** A speech replaced by a new message that says the same. */
  lemma QuietReplaceBy(s: State, i: nat, m: Message)
    requires i < |s.messages| && SpeechOf(m) == SpeechOf(s.messages[i])
    ensures Quiet(s, ReplaceBy(s.(streamingId := None), i, [m]))
  {
    var new_ := Stamp([m], s.currentTurn, s.nextId);
    var a, b := s.messages[..i], s.messages[i + 1..];
    assert s.messages == a + [s.messages[i]] + b;
    assert new_ == [new_[0]];
    SpeechesAround(a, s.messages[i], b);
    SpeechesAround(a, new_[0], b);
  }

  lemma QuietSettled(s: State, cfg: Config)
    requires Inv(s) && WholeLive(s, cfg)
    ensures Quiet(s, CloseSegment(FinishStatus(s), cfg))
  {
    hide Quiet, Live, CloseSegment, HasChart, Blocks;
    QuietFinishStatus(s);
    FinishKeepsLive(s);
    QuietClose(FinishStatus(s), cfg);
    QuietTrans(s, FinishStatus(s), CloseSegment(FinishStatus(s), cfg));
  }

  // ----- the budget, when it evicts nothing -----

  lemma {:induction false} EvictCounts(s: State, cfg: Config)
    ensures Evict(s, cfg).dropped >= s.dropped
    ensures Evict(s, cfg).dropped == s.dropped ==> Evict(s, cfg) == s
    decreases |s.messages|
  {
    hide OverBudget, Victim;
    if s.messages != [] && OverBudget(s.messages, cfg) {
      EvictCounts(RemoveMessage(s, Victim(s)), cfg);
    }
  }

  lemma EnforceCounts(s: State, cfg: Config)
    ensures EnforceBudget(s, cfg).dropped >= s.dropped
  {
    EvictCounts(s.(messages := TruncateAll(s.messages, cfg.maxFieldBytes)), cfg);
  }

  /** Every text and every reasoning is short enough to be left alone by field truncation. */
  ghost predicate Fits(ps: seq<Speech>, max: nat) {
    forall p :: p in ps ==> Bytes(p.text) <= max && Bytes(p.thought) <= max
  }

  lemma TruncatedSpeech(m: Message, max: nat)
    requires IsSpeech(m) ==> Bytes(m.content) <= max && Bytes(m.reasoning) <= max
    ensures TruncateFields(m, max).id == m.id && SpeechOf(TruncateFields(m, max)) == SpeechOf(m)
    ensures IsSpeech(TruncateFields(m, max)) == IsSpeech(m)
  {
    hide Bytes, BoundCard;
  }

  lemma QuietTruncate(s: State, max: nat)
    requires Fits(Speeches(s.messages), max)
    ensures Quiet(s, s.(messages := TruncateAll(s.messages, max)))
  {
    hide TruncateFields, Speeches;
    var ms, after := s.messages, TruncateAll(s.messages, max);
    forall i | 0 <= i < |ms|
      ensures after[i].id == ms[i].id && SpeechOf(after[i]) == SpeechOf(ms[i]) && IsSpeech(after[i]) == IsSpeech(ms[i])
    {
      if IsSpeech(ms[i]) {
        SpeechIn(ms, i);
      }
      TruncatedSpeech(ms[i], max);
    }
    SpeechesAlike(after, ms);
  }

  lemma QuietEnforce(s: State, t: State, cfg: Config)
    requires Quiet(s, t) && Fits(Speeches(s.messages), cfg.maxFieldBytes)
    requires EnforceBudget(t, cfg).dropped == t.dropped
    ensures Quiet(s, EnforceBudget(t, cfg))
  {
    if !t.deferred {
      var u := t.(messages := TruncateAll(t.messages, cfg.maxFieldBytes));
      QuietTruncate(t, cfg.maxFieldBytes);
      EvictCounts(u, cfg);
      QuietTrans(s, t, u);
    }
  }

  // ----- the deltas -----

  /** From s to t the assistant said and thought that much more. */
  ghost predicate Speaks(s: State, t: State, more: Speech) {
    && Said(Speeches(t.messages)) == Plus(Said(Speeches(s.messages)), more)
    && LastSpeech(t.messages, t.streamingId)
  }

  function TextIn(e: Event): Speech {
    match e
    case AssistantMessageDelta(_, delta) => Speech(delta, "")
    case ReasoningDelta(_, delta) => Speech("", delta)
    case _ => NOTHING
  }

  predicate IsDelta(e: Event) {
    e.AssistantMessageDelta? || e.ReasoningDelta?
  }

  /** What the delta's segment holds of its kind; a reasoning delta opens a new segment behind visible text. */
  function HeldBefore(s: State, e: Event): string {
    if Live(s).None? then ""
    else if e.AssistantMessageDelta? then Live(s).value.content
    else if SegmentHasText(s) then "" else Live(s).value.reasoning
  }

  /** The delta fits behind what its segment holds. */
  predicate HasRoom(s: State, e: Event, cfg: Config) {
    e.AssistantMessageDelta? || e.ReasoningDelta? ==> Bytes(HeldBefore(s, e)) + Bytes(e.delta) <= cfg.maxFieldBytes
  }

  lemma RoomForAll(held: string, delta: string, max: nat)
    ensures Bytes(AppendBounded(held, delta, max)) <= max
    ensures AppendBounded(held, delta, max) == held + delta <==> Bytes(held) + Bytes(delta) <= max
  {
    AppendedFits(MARKER, held, delta, max);
    BytesConcat(held, delta);
  }

  lemma AppendedFits(m: string, held: string, delta: string, max: nat)
    ensures Bytes(Append(m, held, delta, max)) <= max
  {
    BytesConcat(held, delta);
    if Bytes(held) + Bytes(delta) > max {
      var p := PrefixIsLongest(m, max);
      if max > Bytes(m) {
        var tail := max - Bytes(m);
        if Bytes(delta) >= tail {
          var k := SuffixIsLongest(delta, tail);
          BytesConcat(m, Suffix(delta, tail));
        } else {
          var k := SuffixIsLongest(Strip(m, held), tail - Bytes(delta));
          BytesConcat(Suffix(Strip(m, held), tail - Bytes(delta)), delta);
          BytesConcat(m, Suffix(Strip(m, held), tail - Bytes(delta)) + delta);
        }
      }
    }
  }

  /** The last speech becomes another one: what is said changes by what that one gains. */
  lemma LastSays(front: seq<Speech>, p: Speech, q: Speech, more: Speech)
    ensures Said(front + [q]) == Plus(Said(front + [p]), more) <==> q == Plus(p, more)
  {
    SaidSnoc(front, p);
    SaidSnoc(front, q);
    SameEnds(Said(front).text, p.text, q.text, more.text);
    SameEnds(Said(front).thought, p.thought, q.thought, more.thought);
  }

  lemma SameEnds(front: string, p: string, q: string, more: string)
    ensures front + q == (front + p) + more <==> q == p + more
  {
    Associate(front, p, more);
    assert (front + q)[|front|..] == q && (front + (p + more))[|front|..] == p + more;
  }

  /** The segment at i rewritten, with silence behind it. */
  lemma SegmentRewritten(s: State, i: nat, m: Message, more: Speech)
    requires Inv(s) && LastSpeech(s.messages, s.streamingId)
    requires i < |s.messages| && s.streamingId == Some(s.messages[i].id) && IsSpeech(s.messages[i])
    requires m.id == s.messages[i].id && IsSpeech(m)
    ensures Speaks(s, s.(messages := s.messages[i := m]), more) <==>
              m.content == s.messages[i].content + more.text && m.reasoning == s.messages[i].reasoning + more.thought
    ensures LastSpeech(s.messages[i := m], s.streamingId)
  {
    var ms := s.messages;
    var a, b := ms[..i], ms[i + 1..];
    assert ms == a + [ms[i]] + b && ms[i := m] == a + [m] + b;
    Silence(b);
    SpeechesAround(a, ms[i], b);
    SpeechesAround(a, m, b);
    var p, q := Speech(ms[i].content, ms[i].reasoning), Speech(m.content, m.reasoning);
    assert Speeches(ms) == Speeches(a) + [p] && Speeches(ms[i := m]) == Speeches(a) + [q];
    LastSays(Speeches(a), p, q, more);
    LastSpeechStays(ms, i, m, s.streamingId);
  }

  lemma LastSpeechStays(ms: seq<Message>, i: nat, m: Message, id: Option<nat>)
    requires LastSpeech(ms, id) && i < |ms| && id == Some(ms[i].id) && m.id == ms[i].id
    requires forall k :: 0 <= k < i ==> ms[k].id != ms[i].id
    ensures LastSpeech(ms[i := m], id)
  {
    var after := ms[i := m];
    forall k, j | 0 <= k < j < |after| && id == Some(after[k].id) ensures !IsSpeech(after[j]) {
      assert id == Some(ms[k].id);
      assert j != i ==> after[j] == ms[j];
    }
  }

  lemma SegmentOpened(s: State, m: Message, more: Speech)
    requires Inv(s) && IsSpeech(m)
    ensures var t := Push(s, m).(streamingId := Some(s.nextId));
            && (Speaks(s, t, more) <==> m.content == more.text && m.reasoning == more.thought)
            && LastSpeech(t.messages, t.streamingId)
  {
    var new_ := Stamp([m], s.currentTurn, s.nextId);
    SpeechesConcat(s.messages, new_);
    assert new_[1..] == [];
    var ps := Speeches(s.messages);
    assert Speeches(s.messages + new_) == ps + [Speech(m.content, m.reasoning)];
    SaidSnoc(ps, Speech(m.content, m.reasoning));
    var base := Said(ps);
    assert (base.text + m.content)[|base.text|..] == m.content && (base.text + more.text)[|base.text|..] == more.text;
    assert (base.thought + m.reasoning)[|base.thought|..] == m.reasoning;
    assert (base.thought + more.thought)[|base.thought|..] == more.thought;
  }

  lemma LiveIsSpeech(s: State)
    requires Inv(s)
    ensures var i := PositionOf(s.messages, s.streamingId);
            i.Some? ==> IsSpeech(s.messages[i.value]) && s.streamingId == Some(s.messages[i.value].id)
  {
    StreamingAt(s);
  }

  /** The text half of a delta, on the state without the status row. */
  lemma TextGoesOn(s: State, delta: string, cfg: Config)
    requires Inv(s) && LastSpeech(s.messages, s.streamingId)
    ensures var i := PositionOf(s.messages, s.streamingId);
            var t := PutOrOpen(s, i, WithText(s.messages, i, delta, cfg));
            && LastSpeech(t.messages, t.streamingId)
            && (Speaks(s, t, Speech(delta, "")) <==>
                  Bytes(if i.Some? then s.messages[i.value].content else "") + Bytes(delta) <= cfg.maxFieldBytes)
  {
    hide AppendBounded, Speaks, Bytes, LastSpeech;
    LiveIsSpeech(s);
    var i := PositionOf(s.messages, s.streamingId);
    var more := Speech(delta, "");
    if i.Some? {
      var m := s.messages[i.value];
      RoomForAll(m.content, delta, cfg.maxFieldBytes);
      assert m.reasoning + "" == m.reasoning;
      SegmentRewritten(s, i.value, WithText(s.messages, i, delta, cfg), more);
    } else {
      RoomForAll("", delta, cfg.maxFieldBytes);
      assert "" + delta == delta;
      SegmentOpened(s, WithText(s.messages, i, delta, cfg), more);
    }
  }

  lemma ThoughtGoesOn(s: State, delta: string, cfg: Config)
    requires Inv(s) && LastSpeech(s.messages, s.streamingId)
    ensures var i := PositionOf(s.messages, s.streamingId);
            var t := PutOrOpen(s, i, WithReasoning(s.messages, i, delta, cfg));
            && LastSpeech(t.messages, t.streamingId)
            && (Speaks(s, t, Speech("", delta)) <==>
                  Bytes(if i.Some? then s.messages[i.value].reasoning else "") + Bytes(delta) <= cfg.maxFieldBytes)
  {
    hide AppendBounded, Speaks, Bytes, LastSpeech;
    LiveIsSpeech(s);
    var i := PositionOf(s.messages, s.streamingId);
    var more := Speech("", delta);
    if i.Some? {
      var m := s.messages[i.value];
      RoomForAll(m.reasoning, delta, cfg.maxFieldBytes);
      assert m.content + "" == m.content;
      SegmentRewritten(s, i.value, WithReasoning(s.messages, i, delta, cfg), more);
    } else {
      RoomForAll("", delta, cfg.maxFieldBytes);
      assert "" + delta == delta;
      SegmentOpened(s, WithReasoning(s.messages, i, delta, cfg), more);
    }
  }

  /** The segment a reasoning delta goes to, once the status row is gone. */
  function ReasoningSegment(s: State): State {
    var s0 := FinishStatus(s);
    if SegmentHasText(s0) then s0.(streamingId := None) else s0
  }

  lemma ReasoningSegmentOk(s: State)
    requires Inv(s) && LastSpeech(s.messages, s.streamingId)
    ensures var s1 := ReasoningSegment(s);
            && Inv(s1) && LastSpeech(s1.messages, s1.streamingId)
            && Speeches(s1.messages) == Speeches(s.messages)
            && Live(s1) == (if SegmentHasText(s) then None else Live(s))
  {
    hide Speeches;
    FinishKeepsLive(s);
    QuietFinishStatus(s);
  }

  /** A delta is said in full, and nothing else is, exactly when there is room for it. */
  lemma DeltaSpeaksIff(s: State, e: Event, cfg: Config)
    requires Inv(s) && LastSpeech(s.messages, s.streamingId) && IsDelta(e)
    ensures var t := Reduce(s, e, cfg);
            && t.dropped == s.dropped && LastSpeech(t.messages, t.streamingId)
            && (Speaks(s, t, TextIn(e)) <==> HasRoom(s, e, cfg))
  {
    hide Bytes, AppendBounded, Speeches, Said, LastSpeech, Inv;
    if e.AssistantMessageDelta? {
      FinishKeepsLive(s);
      QuietFinishStatus(s);
      TextGoesOn(FinishStatus(s), e.delta, cfg);
    } else {
      ReasoningSegmentOk(s);
      ThoughtGoesOn(ReasoningSegment(s), e.delta, cfg);
    }
  }

  /**
   A reasoning delta goes to exactly one message, which has no visible text; every
   other row stays as it was after the status row was dropped.
   */
  lemma ReasoningGoesToBlank(s: State, delta: string, cfg: Config) returns (i: nat)
    requires Inv(s)
    ensures var before, t := FinishStatus(s).messages, AppendReasoning(s, delta, cfg);
            && i < |t.messages| && t.streamingId == Some(t.messages[i].id)
            && Trim(t.messages[i].content) == ""
            && |before| <= |t.messages| && |t.messages| == Max(|before|, i + 1)
            && (forall j :: 0 <= j < |t.messages| && j != i ==> j < |before| && t.messages[j] == before[j])
            && (i < |before| ==> t.messages[i] == before[i].(reasoning :=
                                   AppendBounded(before[i].reasoning, delta, cfg.maxFieldBytes)))
  {
    hide AppendBounded, FinishStatus, Inv;
    var s1 := ReasoningSegment(s);
    var k := PositionOf(s1.messages, s1.streamingId);
    i := if k.Some? then k.value else |s1.messages|;
    assert Trim("") == "";
  }

  // ----- the deltas keep within the field limit -----

  lemma FitsUpdate(ms: seq<Message>, i: nat, m: Message, max: nat)
    requires Fits(Speeches(ms), max) && i < |ms| && Bytes(m.content) <= max && Bytes(m.reasoning) <= max
    ensures Fits(Speeches(ms[i := m]), max)
  {
    hide Bytes;
    var a, b := ms[..i], ms[i + 1..];
    assert ms == a + [ms[i]] + b && ms[i := m] == a + [m] + b;
    SpeechesAround(a, ms[i], b);
    SpeechesAround(a, m, b);
  }

  lemma FitsPush(s: State, m: Message, max: nat)
    requires Fits(Speeches(s.messages), max) && Bytes(m.content) <= max && Bytes(m.reasoning) <= max
    ensures Fits(Speeches(Push(s, m).messages), max)
  {
    hide Bytes;
    var new_ := Stamp([m], s.currentTurn, s.nextId);
    SpeechesConcat(s.messages, new_);
    assert new_[1..] == [];
  }

  /** A segment that had a text within the limit has one afterwards. */
  lemma PutFits(s: State, i: Option<nat>, m: Message, max: nat)
    requires i.Some? ==> i.value < |s.messages|
    requires Fits(Speeches(s.messages), max) && Bytes(m.content) <= max && Bytes(m.reasoning) <= max
    ensures Fits(Speeches(PutOrOpen(s, i, m).messages), max)
  {
    hide Bytes, Fits, Speeches;
    if i.Some? {
      FitsUpdate(s.messages, i.value, m, max);
    } else {
      FitsPush(s, m, max);
    }
  }

  lemma DeltaFits(s: State, delta: string, cfg: Config)
    requires Inv(s) && Fits(Speeches(s.messages), cfg.maxFieldBytes)
    ensures Fits(Speeches(AppendDelta(s, delta, cfg).messages), cfg.maxFieldBytes)
  {
    hide AppendBounded, Speeches;
    QuietFinishStatus(s);
    FinishStatusKeeps(s);
    var s1 := FinishStatus(s);
    LiveIsSpeech(s1);
    var i := PositionOf(s1.messages, s1.streamingId);
    if i.Some? {
      SpeechIn(s1.messages, i.value);
      RoomForAll(s1.messages[i.value].content, delta, cfg.maxFieldBytes);
    } else {
      RoomForAll("", delta, cfg.maxFieldBytes);
    }
    PutFits(s1, i, WithText(s1.messages, i, delta, cfg), cfg.maxFieldBytes);
  }

  lemma ReasoningFits(s: State, delta: string, cfg: Config)
    requires Inv(s) && LastSpeech(s.messages, s.streamingId) && Fits(Speeches(s.messages), cfg.maxFieldBytes)
    ensures Fits(Speeches(AppendReasoning(s, delta, cfg).messages), cfg.maxFieldBytes)
  {
    hide AppendBounded, Speeches;
    ReasoningSegmentOk(s);
    var s1 := ReasoningSegment(s);
    LiveIsSpeech(s1);
    var i := PositionOf(s1.messages, s1.streamingId);
    if i.Some? {
      SpeechIn(s1.messages, i.value);
      RoomForAll(s1.messages[i.value].reasoning, delta, cfg.maxFieldBytes);
    } else {
      RoomForAll("", delta, cfg.maxFieldBytes);
    }
    PutFits(s1, i, WithReasoning(s1.messages, i, delta, cfg), cfg.maxFieldBytes);
  }

  // ----- every other event is quiet -----

  lemma QuietThenPush(s: State, t: State, m: Message)
    requires Quiet(s, t) && !IsSpeech(m)
    ensures Quiet(s, Push(t, m))
  {
    hide Quiet, Push;
    QuietPush(t, m);
    QuietTrans(s, t, Push(t, m));
  }

  lemma QuietToolCall(s: State, callId: string, name: string, action: ToolAction, arguments: Arguments, cfg: Config)
    requires Inv(s) && WholeLive(s, cfg)
    ensures Quiet(s, PushToolCall(s, callId, name, action, arguments, cfg))
    ensures PushToolCall(s, callId, name, action, arguments, cfg).dropped == s.dropped
  {
    hide Quiet, WholeLive, CacheToolInput, BoundTool;
    QuietSettled(s, cfg);
    var s1 := CloseSegment(FinishStatus(s), cfg);
    var s2 := CacheToolInput(s1, callId, arguments);
    CacheRows(s1, callId, arguments);
    QuietRows(s1, s2);
    QuietTrans(s, s1, s2);
    var d := ToolCardData(callId, name, action, None, None, arguments.summary, arguments.json,
                          true, None, "", "", [], None);
    QuietThenPush(s, s2, CardMessage(ToolCard(BoundTool(d, CardLimit(cfg)))));
  }

  lemma QuietObservation(s: State, obs: Observation, cfg: Config)
    ensures Quiet(s, ApplyObservation(s, obs, cfg))
    ensures ApplyObservation(s, obs, cfg).dropped == s.dropped
  {
    hide Quiet, Observed;
    var i := FindCard(s.messages, ToolKey(obs.callId));
    if i.Some? {
      QuietReplaceCard(s, ToolKey(obs.callId), ToolCard(Observed(s.messages[i.value].variant.card.tool, obs, cfg)));
    } else {
      var d := ToolCardData(obs.callId, obs.toolName, obs.action, None, None, "", "", false, None, "", "", [], None);
      QuietPush(s, CardMessage(ToolCard(Observed(d, obs, cfg))));
    }
  }

  lemma QuietFinishCall(s: State, callId: string, success: bool)
    ensures Quiet(s, FinishToolCall(s, callId, success))
    ensures FinishToolCall(s, callId, success).dropped == s.dropped
  {
    hide Quiet;
    var s1 := RemoveToolInput(s, callId);
    QuietRows(s, s1);
    var i := FindCard(s1.messages, ToolKey(callId));
    if i.Some? {
      var card := ToolCard(s1.messages[i.value].variant.card.tool.(running := false, success := Some(success)));
      QuietReplaceCard(s1, ToolKey(callId), card);
      QuietTrans(s, s1, ReplaceCard(s1, ToolKey(callId), card));
    }
  }

  lemma QuietWithinBudget(s: State, t: State, cfg: Config)
    requires Quiet(s, t) && t.dropped == s.dropped && Fits(Speeches(s.messages), cfg.maxFieldBytes)
    ensures EnforceBudget(t, cfg).dropped >= s.dropped
    ensures EnforceBudget(t, cfg).dropped == s.dropped ==> Quiet(s, EnforceBudget(t, cfg))
  {
    hide *;
    EnforceCounts(t, cfg);
    if EnforceBudget(t, cfg).dropped == t.dropped {
      QuietEnforce(s, t, cfg);
    }
  }

  lemma QuietConfirm(s: State, question: string, callId: Option<string>, name: Option<string>,
                     arguments: Option<Arguments>, items: seq<ConfirmItem>, cfg: Config)
    requires Inv(s) && Fits(Speeches(s.messages), cfg.maxFieldBytes)
    ensures var t := PushConfirm(s, question, callId, name, arguments, items, cfg);
            t.dropped >= s.dropped && (t.dropped == s.dropped ==> Quiet(s, t))
  {
    hide Quiet, EnforceBudget, Fits, BoundConfirm, ConfirmInput;
    QuietFinishStatus(s);
    var s1 := FinishStatus(s);
    var input := ConfirmInput(s1, callId, arguments);
    var d := ConfirmData(if callId.Some? then callId.value else "", if name.Some? then name.value else "unknown",
                         items, input.0, input.1, question, Pending);
    var m := CardMessage(ConfirmCard(BoundConfirm(d, CardLimit(cfg))));
    QuietThenPush(s, s1, m);
    QuietWithinBudget(s, Push(s1, m), cfg);
  }

  lemma QuietResolve(s: State, callId: string, approved: bool, cfg: Config)
    requires Fits(Speeches(s.messages), cfg.maxFieldBytes)
    ensures var t := ResolveConfirm(s, callId, approved, cfg);
            t.dropped >= s.dropped && (t.dropped == s.dropped ==> Quiet(s, t))
  {
    hide Quiet, EnforceBudget, Fits;
    var i := FindCard(s.messages, ConfirmKey(callId));
    if i.Some? {
      var d := s.messages[i.value].variant.card.confirm.(status := if approved then Approved else Rejected);
      var s1 := ReplaceCard(s, ConfirmKey(callId), ConfirmCard(d));
      QuietReplaceCard(s, ConfirmKey(callId), ConfirmCard(d));
      QuietWithinBudget(s, s1, cfg);
    } else {
      QuietRows(s, s);
    }
  }

  lemma QuietUser(s: State, text: string, cfg: Config)
    requires Fits(Speeches(s.messages), cfg.maxFieldBytes)
    ensures var t := EnforceBudget(Push(s, NewMessage(UserRole, text, Text, false)), cfg);
            t.dropped >= s.dropped && (t.dropped == s.dropped ==> Quiet(s, t))
  {
    hide Quiet, EnforceBudget, Fits;
    QuietPush(s, NewMessage(UserRole, text, Text, false));
    QuietWithinBudget(s, Push(s, NewMessage(UserRole, text, Text, false)), cfg);
  }

  lemma QuietStatus(s: State, title: string, isDone: bool)
    requires Inv(s)
    ensures Quiet(s, UpsertStatus(s, title, isDone))
  {
    var i := PositionOf(s.messages, s.activeStatusId);
    if i.Some? {
      OneTag(s.messages, i.value, LiveStatus);
      var m := s.messages[i.value].(variant := Status(title, isDone), isStreaming := !isDone);
      QuietUpdate(s, i.value, m);
    } else {
      QuietPush(s, StatusMessage(title, isDone));
    }
  }

  lemma QuietPlan(s: State, plan: PlanData)
    requires Inv(s)
    ensures Quiet(s, UpsertPlan(s, plan))
  {
    var s1 := s.(latestPlan := Some(plan));
    var i := PositionOf(s1.messages, s1.planMessageId);
    if i.Some? {
      OneTag(s1.messages, i.value, KindOf(s1.messages[i.value]));
      QuietUpdate(s1, i.value, s1.messages[i.value].(variant := CardOf(PlanCard(plan))));
    } else {
      QuietPush(s1, CardMessage(PlanCard(plan)));
    }
  }

  lemma QuietSubagentPushed(s: State, id: string, name: string, task: string, cfg: Config)
    requires Inv(s) && WholeLive(s, cfg)
    ensures Quiet(s, PushSubagent(s, id, name, task, cfg)) && PushSubagent(s, id, name, task, cfg).dropped == s.dropped
  {
    hide Quiet, WholeLive, BoundSubagent, TrimSubagents, FindSubagent;
    QuietSettled(s, cfg);
    var s1 := CloseSegment(FinishStatus(s), cfg);
    var d := BoundSubagent(SubAgentData(id, name, task, true, None, ""), CardLimit(cfg));
    QuietRows(s1, UpsertSubagent(s1, d, cfg));
    QuietTrans(s, s1, UpsertSubagent(s1, d, cfg));
    QuietThenPush(s, UpsertSubagent(s1, d, cfg), CardMessage(SubAgentCard(d)));
  }

  lemma QuietSubagentReplaced(s: State, id: string, d: SubAgentData, cfg: Config)
    ensures var t := ReplaceCard(UpsertSubagent(s, d, cfg), SubAgentKey(id), SubAgentCard(d));
            Quiet(s, t) && t.dropped == s.dropped
  {
    hide Quiet, BoundSubagent, TrimSubagents, FindSubagent;
    var s1 := UpsertSubagent(s, d, cfg);
    QuietRows(s, s1);
    QuietReplaceCard(s1, SubAgentKey(id), SubAgentCard(d));
    QuietTrans(s, s1, ReplaceCard(s1, SubAgentKey(id), SubAgentCard(d)));
  }

  lemma QuietSubagentUpdate(s: State, id: string, summary: string, cfg: Config)
    ensures Quiet(s, UpdateSubagent(s, id, summary, cfg)) && UpdateSubagent(s, id, summary, cfg).dropped == s.dropped
  {
    hide Quiet, UpsertSubagent, ReplaceCard, LookupSubagent;
    var d := LookupSubagent(s, id);
    if d.Some? {
      QuietSubagentReplaced(s, id, d.value.(summary := summary), cfg);
    } else {
      QuietRows(s, s);
    }
  }

  lemma QuietSubagentEnd(s: State, id: string, success: bool, summary: string, cfg: Config)
    ensures Quiet(s, FinishSubagent(s, id, success, summary, cfg))
    ensures FinishSubagent(s, id, success, summary, cfg).dropped == s.dropped
  {
    hide Quiet, UpsertSubagent, ReplaceCard, LookupSubagent;
    var d := LookupSubagent(s, id);
    if d.Some? {
      QuietSubagentReplaced(s, id, d.value.(running := false, success := Some(success),
                              summary := if summary != "" then summary else d.value.summary), cfg);
    } else {
      QuietRows(s, s);
    }
  }

  lemma QuietCancel(s: State, cfg: Config)
    requires Inv(s) && WholeLive(s, cfg)
    ensures Quiet(s, Push(CloseSegment(FinishStatus(s), cfg), SystemMessage(cfg.cancelledText)))
  {
    hide Quiet, WholeLive, CloseSegment, FinishStatus;
    QuietSettled(s, cfg);
    QuietThenPush(s, CloseSegment(FinishStatus(s), cfg), SystemMessage(cfg.cancelledText));
  }

  lemma QuietFailure(s: State, reason: string, cfg: Config)
    requires Inv(s)
    ensures Quiet(s, Push(FinishStatus(s).(streamingId := None), SystemMessage(cfg.failedText(reason))))
  {
    hide Quiet, FinishStatus;
    QuietFinishStatus(s);
    QuietRows(FinishStatus(s), FinishStatus(s).(streamingId := None));
    QuietTrans(s, FinishStatus(s), FinishStatus(s).(streamingId := None));
    QuietThenPush(s, FinishStatus(s).(streamingId := None), SystemMessage(cfg.failedText(reason)));
  }

  /** A final text that says what the segment says already. */
  predicate Confirms(s: State, text: string, reasoning: Option<string>) {
    Live(s).Some? && text == Live(s).value.content && (reasoning.Some? ==> reasoning.value == Live(s).value.reasoning)
  }

  lemma QuietFinal(s: State, text: string, reasoning: Option<string>, cfg: Config)
    requires Inv(s) && WholeLive(s, cfg) && Confirms(s, text, reasoning)
    ensures Quiet(s, FinalizeAssistant(s, text, reasoning, cfg))
    ensures FinalizeAssistant(s, text, reasoning, cfg).dropped == s.dropped
  {
    hide Quiet, WholeLive, Finished, WithoutId;
    QuietSettled(s, cfg);
    FinishKeepsLive(s);
    assert FinalizeAssistant(s, text, reasoning, cfg) == CloseSegment(FinishStatus(s), cfg);
  }

  /** Events that close the segment being written. */
  predicate Closes(e: Event) {
    e.AssistantMessage? || e.ToolCallStarted? || e.SubAgentStarted? || e.TurnCompleted? || e.TurnCancelled?
  }

  /**
   Events other than deltas say nothing, as long as nothing is evicted, no chart is
   in the segment they close, and a final text is the one that was streamed.
   */
  lemma OthersAreQuiet(s: State, e: Event, cfg: Config)
    requires Inv(s) && Fits(Speeches(s.messages), cfg.maxFieldBytes) && !IsDelta(e)
    requires Closes(e) ==> WholeLive(s, cfg)
    requires e.AssistantMessage? ==> Confirms(s, e.text, e.reasoning)
    ensures Reduce(s, e, cfg).dropped >= s.dropped
    ensures Reduce(s, e, cfg).dropped == s.dropped ==> Quiet(s, Reduce(s, e, cfg))
  {
    if Closes(e) || e.TurnStarted? || e.TurnFailed? {
      EndsAreQuiet(s, e, cfg);
    } else if e.StatusChanged? || e.PlanUpdated? || e.SubAgentUpdated? || e.SubAgentFinished? {
      RowsAreQuiet(s, e, cfg);
    } else {
      ToolsAreQuiet(s, e, cfg);
    }
  }

  lemma EndsAreQuiet(s: State, e: Event, cfg: Config)
    requires Inv(s) && (Closes(e) || e.TurnStarted? || e.TurnFailed?)
    requires Closes(e) ==> WholeLive(s, cfg)
    requires e.AssistantMessage? ==> Confirms(s, e.text, e.reasoning)
    ensures Reduce(s, e, cfg).dropped == s.dropped && Quiet(s, Reduce(s, e, cfg))
  {
    hide Quiet, Inv, WholeLive, Confirms, FinalizeAssistant, PushToolCall, PushSubagent;
    match e {
      case TurnStarted(_) => QuietRows(s, Reduce(s, e, cfg));
      case AssistantMessage(_, text, reasoning) => QuietFinal(s, text, reasoning, cfg);
      case ToolCallStarted(_, callId, name, action, arguments) =>
        QuietToolCall(s, callId, name, action, arguments, cfg);
      case SubAgentStarted(_, id, name, task) => QuietSubagentPushed(s, id, name, task, cfg);
      case TurnCompleted(_) => QuietSettled(s, cfg);
      case TurnCancelled(_) => QuietCancel(s, cfg);
      case TurnFailed(_, reason) => QuietFailure(s, reason, cfg);
    }
  }

  lemma RowsAreQuiet(s: State, e: Event, cfg: Config)
    requires Inv(s)
    requires e.StatusChanged? || e.PlanUpdated? || e.SubAgentUpdated? || e.SubAgentFinished?
    ensures Reduce(s, e, cfg).dropped == s.dropped && Quiet(s, Reduce(s, e, cfg))
  {
    hide Quiet, Inv, UpdateSubagent, FinishSubagent, Position;
    match e {
      case StatusChanged(_, title, isDone) => QuietStatus(s, title, isDone);
      case PlanUpdated(_, plan) => QuietPlan(s, plan);
      case SubAgentUpdated(_, id, summary) => QuietSubagentUpdate(s, id, summary, cfg);
      case SubAgentFinished(_, id, success, summary) => QuietSubagentEnd(s, id, success, summary, cfg);
    }
  }

  lemma ToolsAreQuiet(s: State, e: Event, cfg: Config)
    requires Inv(s) && Fits(Speeches(s.messages), cfg.maxFieldBytes)
    requires e.UserMessage? || e.ObservationAdded? || e.ToolCallFinished? || e.NeedUserInput? || e.ToolApprovalResolved?
    ensures Reduce(s, e, cfg).dropped >= s.dropped
    ensures Reduce(s, e, cfg).dropped == s.dropped ==> Quiet(s, Reduce(s, e, cfg))
  {
    hide Quiet, Inv, Fits, EnforceBudget, ApplyObservation, FinishToolCall, PushConfirm, ResolveConfirm;
    match e {
      case UserMessage(_, text) => QuietUser(s, cfg.userText(text), cfg);
      case ObservationAdded(_, obs) => QuietObservation(s, obs, cfg);
      case ToolCallFinished(_, callId, success) => QuietFinishCall(s, callId, success);
      case NeedUserInput(_, question, callId, name, arguments, items) =>
        QuietConfirm(s, question, callId, name, arguments, items, cfg);
      case ToolApprovalResolved(_, callId, approved) => QuietResolve(s, callId, approved, cfg);
    }
  }

  // ----- runs of events -----

  function Uttered(events: seq<Event>): Speech {
    if events == [] then NOTHING else Plus(Uttered(events[..|events| - 1]), TextIn(events[|events| - 1]))
  }

  /** Events applied to a fresh transcript, with or without the budget deferred. */
  function RunEvents(events: seq<Event>, deferred: bool, cfg: Config): State {
    if events == [] then EMPTY.(deferred := deferred)
    else Apply(RunEvents(events[..|events| - 1], deferred, cfg), events[|events| - 1], cfg)
  }

  /**
   The event by itself takes nothing away: its delta has room in its segment, the
   segment it closes holds no chart, and a final text is the one that was streamed.
   */
  predicate Lossless(s: State, e: Event, cfg: Config) {
    Repeats(s, e, cfg)
    || (HasRoom(s, e, cfg) && (Closes(e) ==> WholeLive(s, cfg))
        && (e.AssistantMessage? ==> Confirms(s, e.text, e.reasoning)))
  }

  predicate RunIsLossless(events: seq<Event>, deferred: bool, cfg: Config) {
    if events == [] then true
    else
      var front := events[..|events| - 1];
      RunIsLossless(front, deferred, cfg) && Lossless(RunEvents(front, deferred, cfg), events[|events| - 1], cfg)
  }

  lemma SettledCounts(s: State, cfg: Config)
    ensures FinishStatus(s).dropped == s.dropped && CloseSegment(FinishStatus(s), cfg).dropped == s.dropped
  {
    hide Finished, WithoutId, PositionOf, Splice, Stamp;
  }

  lemma SpeechCounts(s: State, e: Event, cfg: Config)
    requires IsDelta(e) || e.AssistantMessage?
    ensures Reduce(s, e, cfg).dropped == s.dropped
  {
    hide Finished, AppendBounded, SegmentHasText, WithoutId, PositionOf, Splice, Stamp, WithText, WithReasoning;
  }

  /** The counter of dropped messages never falls. */
  lemma EndsCount(s: State, e: Event, cfg: Config)
    requires IsDelta(e) || Closes(e) || e.TurnStarted? || e.TurnFailed?
    ensures Reduce(s, e, cfg).dropped == s.dropped
  {
    hide AppendDelta, AppendReasoning, FinalizeAssistant, CloseSegment, FinishStatus, CacheToolInput, BoundTool,
         TrimSubagents, FindSubagent, BoundSubagent;
    SettledCounts(s, cfg);
    if IsDelta(e) || e.AssistantMessage? {
      SpeechCounts(s, e, cfg);
    } else if e.ToolCallStarted? {
      CacheRows(CloseSegment(FinishStatus(s), cfg), e.callId, e.arguments);
    }
  }

  lemma RowsCount(s: State, e: Event, cfg: Config)
    requires e.StatusChanged? || e.PlanUpdated? || e.SubAgentUpdated? || e.SubAgentFinished?
             || e.ObservationAdded? || e.ToolCallFinished?
    ensures Reduce(s, e, cfg).dropped == s.dropped
  {
    hide Observed, TrimSubagents, FindSubagent, BoundSubagent, LookupSubagent;
  }

  lemma ConfirmCounts(s: State, question: string, callId: Option<string>, name: Option<string>,
                      arguments: Option<Arguments>, items: seq<ConfirmItem>, cfg: Config)
    ensures PushConfirm(s, question, callId, name, arguments, items, cfg).dropped >= s.dropped
  {
    hide EnforceBudget, BoundConfirm, ConfirmInput;
    var s1 := FinishStatus(s);
    var input := ConfirmInput(s1, callId, arguments);
    var d := ConfirmData(if callId.Some? then callId.value else "", if name.Some? then name.value else "unknown",
                         items, input.0, input.1, question, Pending);
    EnforceCounts(Push(s1, CardMessage(ConfirmCard(BoundConfirm(d, CardLimit(cfg))))), cfg);
  }

  lemma ResolveCounts(s: State, callId: string, approved: bool, cfg: Config)
    ensures ResolveConfirm(s, callId, approved, cfg).dropped >= s.dropped
  {
    hide EnforceBudget;
    var i := FindCard(s.messages, ConfirmKey(callId));
    if i.Some? {
      var d := s.messages[i.value].variant.card.confirm.(status := if approved then Approved else Rejected);
      EnforceCounts(ReplaceCard(s, ConfirmKey(callId), ConfirmCard(d)), cfg);
    }
  }

  lemma ReduceCounts(s: State, e: Event, cfg: Config)
    ensures Reduce(s, e, cfg).dropped >= s.dropped
  {
    hide EnforceBudget, PushConfirm, ResolveConfirm;
    if IsDelta(e) || Closes(e) || e.TurnStarted? || e.TurnFailed? {
      EndsCount(s, e, cfg);
    } else if e.UserMessage? {
      EnforceCounts(Push(s, NewMessage(UserRole, cfg.userText(e.text), Text, false)), cfg);
    } else if e.NeedUserInput? {
      ConfirmCounts(s, e.question, e.pendingCallId, e.requestedTool, e.requestedArguments, e.pendingCalls, cfg);
    } else if e.ToolApprovalResolved? {
      ResolveCounts(s, e.callId, e.approved, cfg);
    } else {
      RowsCount(s, e, cfg);
    }
  }

  lemma ApplyCounts(s: State, e: Event, cfg: Config)
    ensures Apply(s, e, cfg).dropped >= s.dropped
  {
    hide Reduce, Recorded, EnforceBudget, Repeats;
    var s1 := EnterTurn(s, e.turnId);
    if !Repeats(s1, e, cfg) {
      RecordedRows(s1, e, cfg);
      ReduceCounts(Recorded(s1, e, cfg), e, cfg);
      EnforceCounts(Reduce(Recorded(s1, e, cfg), e, cfg), cfg);
    }
  }

  lemma NothingMore(p: Speech)
    ensures Plus(p, NOTHING) == p
  {
    assert p.text + "" == p.text && p.thought + "" == p.thought;
  }

  /** What a state needs for the next event to lose nothing. */
  ghost predicate Ready(s: State, cfg: Config) {
    Inv(s) && LastSpeech(s.messages, s.streamingId) && Fits(Speeches(s.messages), cfg.maxFieldBytes)
  }

  lemma DeltaReduces(s: State, e: Event, cfg: Config)
    requires Ready(s, cfg) && IsDelta(e) && HasRoom(s, e, cfg)
    ensures Reduce(s, e, cfg).dropped == s.dropped && Speaks(s, Reduce(s, e, cfg), TextIn(e))
    ensures Fits(Speeches(Reduce(s, e, cfg).messages), cfg.maxFieldBytes)
  {
    hide Speeches, Said, LastSpeech, Fits, Inv, HasRoom, Plus, AppendDelta, AppendReasoning;
    DeltaSpeaksIff(s, e, cfg);
    if e.AssistantMessageDelta? {
      DeltaFits(s, e.delta, cfg);
    } else {
      ReasoningFits(s, e.delta, cfg);
    }
  }

  lemma ReduceSpeaks(s: State, e: Event, cfg: Config)
    requires Ready(s, cfg) && HasRoom(s, e, cfg) && (Closes(e) ==> WholeLive(s, cfg))
    requires e.AssistantMessage? ==> Confirms(s, e.text, e.reasoning)
    ensures var t := Reduce(s, e, cfg);
            && t.dropped >= s.dropped
            && (t.dropped == s.dropped ==>
                  Speaks(s, t, TextIn(e)) && Fits(Speeches(t.messages), cfg.maxFieldBytes))
  {
    hide Reduce, Speeches, Said, LastSpeech, Fits, Inv, HasRoom, WholeLive, Confirms, Plus;
    if IsDelta(e) {
      DeltaReduces(s, e, cfg);
    } else {
      NothingMore(Said(Speeches(s.messages)));
      OthersAreQuiet(s, e, cfg);
    }
  }

  /** A quiet budget check after what was said. */
  lemma SpeaksWithinBudget(s: State, t: State, more: Speech, cfg: Config)
    requires Speaks(s, t, more) && Fits(Speeches(t.messages), cfg.maxFieldBytes)
    requires EnforceBudget(t, cfg).dropped == t.dropped
    ensures Speaks(s, EnforceBudget(t, cfg), more)
    ensures Fits(Speeches(EnforceBudget(t, cfg).messages), cfg.maxFieldBytes)
  {
    hide EnforceBudget, Speeches, LastSpeech, Fits, Said, Plus;
    QuietRows(t, t);
    QuietEnforce(t, t, cfg);
  }

  lemma RepetitionSpeaks(s: State, e: Event, cfg: Config)
    requires Ready(s, cfg) && Repeats(s, e, cfg)
    ensures var t := EnterTurn(s, e.turnId);
            Apply(s, e, cfg) == t && Ready(t, cfg) && Speaks(s, t, TextIn(e)) && t.dropped == s.dropped
  {
    hide Reduce, EnforceBudget, Recorded, Speeches, Said, Plus, Bytes;
    NothingMore(Said(Speeches(s.messages)));
  }

  lemma EnteredAlike(s: State, e: Event, cfg: Config)
    requires Ready(s, cfg) && Lossless(s, e, cfg) && !Repeats(s, e, cfg)
    ensures var u := Recorded(EnterTurn(s, e.turnId), e, cfg);
            && Apply(s, e, cfg) == EnforceBudget(Reduce(u, e, cfg), cfg)
            && Ready(u, cfg) && u.messages == s.messages && u.dropped == s.dropped && HasRoom(u, e, cfg)
            && (Closes(e) ==> WholeLive(u, cfg)) && (e.AssistantMessage? ==> Confirms(u, e.text, e.reasoning))
  {
    hide Recorded, Speeches, Said, Bytes, LastSpeech, Reduce, EnforceBudget, HasChart, Blocks, Trim;
    var s1 := EnterTurn(s, e.turnId);
    RecordedRows(s1, e, cfg);
    SameRowsKeep(s1, Recorded(s1, e, cfg));
  }

  lemma ApplySpeaks(s: State, e: Event, cfg: Config)
    requires Ready(s, cfg) && Lossless(s, e, cfg) && Apply(s, e, cfg).dropped == s.dropped
    ensures Ready(Apply(s, e, cfg), cfg) && Speaks(s, Apply(s, e, cfg), TextIn(e))
  {
    hide Apply, Reduce, EnforceBudget, Recorded, Speeches, Said, Plus, Fits, Inv, HasRoom, WholeLive, Confirms, TextIn,
         LastSpeech, Lossless, Repeats;
    ApplyKeeps(s, e, cfg);
    if Repeats(s, e, cfg) {
      RepetitionSpeaks(s, e, cfg);
    } else {
      EnteredAlike(s, e, cfg);
      var u := Recorded(EnterTurn(s, e.turnId), e, cfg);
      ReduceSpeaks(u, e, cfg);
      EnforceCounts(Reduce(u, e, cfg), cfg);
      SpeaksWithinBudget(u, Reduce(u, e, cfg), TextIn(e), cfg);
    }
  }

  /**
   Over every run of events that drops no message and in which no event by itself
   takes something away, what stands in the assistant texts is the text deltas in
   order, and what stands in the reasoning parts is the reasoning deltas in order.
   */
  lemma {:induction false} NothingSaidIsLost(events: seq<Event>, deferred: bool, cfg: Config)
    requires RunIsLossless(events, deferred, cfg) && RunEvents(events, deferred, cfg).dropped == 0
    ensures var s := RunEvents(events, deferred, cfg);
            Said(Speeches(s.messages)) == Uttered(events) && Ready(s, cfg)
  {
    hide Apply, Lossless, Said, Fits, Inv, Plus, TextIn, LastSpeech;
    if events != [] {
      var front, e := events[..|events| - 1], events[|events| - 1];
      var s := RunEvents(front, deferred, cfg);
      ApplyCounts(s, e, cfg);
      NothingSaidIsLost(front, deferred, cfg);
      ApplySpeaks(s, e, cfg);
    } else {
      FreshIsReady(deferred, cfg);
    }
  }

  lemma FreshIsReady(deferred: bool, cfg: Config)
    ensures Ready(EMPTY.(deferred := deferred), cfg) && Said(Speeches(EMPTY.messages)) == NOTHING
  {
  }
}
