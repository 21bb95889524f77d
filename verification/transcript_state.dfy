/**
 Messages, cards, events and the state of the transcript in `agent_transcript.rs`,
 with what each of its operations does to that state. The class in
 `transcript.dfy` carries the operations out field by field.
 */
module TranscriptState {
  import opened Basics
  import opened BoundedText
  import opened FencedBlocks

  const MAX_DATA_CHARS: nat := 2000
  const MAX_TERMINAL_EXEC_DATA_CHARS: nat := 64_000
  const MAX_ACTIVE_SUBAGENTS: nat := 64
  const MAX_TERMINAL_EVENTS: nat := 1024
  const MAX_CACHED_TOOL_INPUTS: nat := 128
  const MAX_CACHED_TOOL_INPUT_BYTES: nat := 1024 * 1024
  const MAX_CARD_FIELD_BYTES: nat := 64 * 1024
  const MAX_CARD_ITEM_FIELD_BYTES: nat := 8 * 1024
  const MAX_CARD_COLLECTION_ITEMS: nat := 64
  const MAX_CARD_FILE_CHANGES: nat := 8

  // ----- cards -----

  datatype ToolAction = Read | Edit | Delete | Move | Search | Execute | Think | Fetch | SwitchMode | Other

  datatype Decision = Pending | Approved | Rejected | Cancelled

  datatype FileStat = FileStat(path: string, added: nat, removed: nat)

  datatype ToolCardData = ToolCardData(
    callId: string, toolName: string, action: ToolAction, targetId: Option<string>, targetLabel: Option<string>,
    inputSummary: string, inputJson: string, running: bool, success: Option<bool>, summary: string,
    dataText: string, fileChanges: seq<FileStat>, durationMs: Option<nat>)

  datatype ConfirmItem = ConfirmItem(callId: string, toolName: string, inputSummary: string, inputJson: string)

  datatype ConfirmData = ConfirmData(
    callId: string, toolName: string, items: seq<ConfirmItem>, inputSummary: string, inputJson: string,
    question: string, status: Decision)

  datatype PermissionOption = PermissionOption(optionId: string, name: string, kind: string)

  datatype PermissionData = PermissionData(
    requestId: string, toolName: string, summary: string, detailsJson: string,
    options: seq<PermissionOption>, status: Decision, selectedOptionName: string)

  datatype SubAgentData = SubAgentData(
    subagentId: string, name: string, task: string, running: bool, success: Option<bool>, summary: string)

  datatype PlanStep = PlanStep(title: string, description: string, status: string, risk: string, tool: Option<string>)

  datatype PlanData = PlanData(goal: string, status: string, steps: seq<PlanStep>)

  datatype Card =
    | ToolCard(tool: ToolCardData)
    | ConfirmCard(confirm: ConfirmData)
    | PermissionCard(permission: PermissionData)
    | SubAgentCard(subagent: SubAgentData)
    | PlanCard(plan: PlanData)
    | CompactionCard(items: nat, text: string)
    | ChartCard(code: string)

  /** What a card is looked up by. */
  datatype CardKey = ToolKey(id: string) | ConfirmKey(id: string) | PermissionKey(id: string)
                   | SubAgentKey(id: string) | PlanKey | NoKey

  function KeyOf(card: Card): CardKey {
    match card
    case ToolCard(d) => ToolKey(d.callId)
    case ConfirmCard(d) => ConfirmKey(d.callId)
    case PermissionCard(d) => PermissionKey(d.requestId)
    case SubAgentCard(d) => SubAgentKey(d.subagentId)
    case PlanCard(_) => PlanKey
    case _ => NoKey
  }

  /** The decision a request's card shows. */
  function DecisionOf(card: Card): Option<Decision> {
    match card
    case ConfirmCard(d) => Some(d.status)
    case PermissionCard(d) => Some(d.status)
    case _ => None
  }

  // ----- messages -----

  datatype Role = UserRole | AssistantRole | SystemRole

  datatype Variant = Text | CardOf(card: Card) | Status(title: string, isDone: bool)

  datatype Message = Message(
    id: nat, turn: Option<string>, role: Role, content: string, reasoning: string,
    variant: Variant, isStreaming: bool)

  /** A message before it gets its id and turn. */
  function NewMessage(role: Role, content: string, variant: Variant, isStreaming: bool): Message {
    Message(0, None, role, content, "", variant, isStreaming)
  }

  function CardMessage(card: Card): Message {
    NewMessage(AssistantRole, "", CardOf(card), false)
  }

  function StatusMessage(title: string, isDone: bool): Message {
    NewMessage(AssistantRole, "", Status(title, isDone), !isDone)
  }

  function SystemMessage(text: string): Message {
    NewMessage(SystemRole, text, Text, false)
  }

  function AssistantMessageOf(text: string): Message {
    NewMessage(AssistantRole, text, Text, false)
  }

  function StreamingMessage(content: string, reasoning: string): Message {
    NewMessage(AssistantRole, content, Text, true).(reasoning := reasoning)
  }

  function PieceMessage(piece: Piece): Message {
    match piece
    case TextPiece(t) => AssistantMessageOf(t)
    case ChartPiece(code) => CardMessage(ChartCard(code))
  }

  // ----- events -----

  /** Tool arguments: their size as JSON and how a card shows them. */
  datatype Arguments = Arguments(bytes: nat, summary: string, json: string)

  datatype Observation = Observation(
    callId: string, toolName: string, action: ToolAction, summary: string, dataText: string, success: bool,
    fileChanges: seq<FileStat>, target: Option<string>, resourceId: Option<string>,
    arguments: Option<Arguments>, durationMs: int)

  datatype Event =
    | TurnStarted(turnId: string)
    | AssistantMessageDelta(turnId: string, delta: string)
    | ReasoningDelta(turnId: string, delta: string)
    | AssistantMessage(turnId: string, text: string, reasoning: Option<string>)
    | UserMessage(turnId: string, text: string)
    | StatusChanged(turnId: string, title: string, isDone: bool)
    | PlanUpdated(turnId: string, plan: PlanData)
    | SubAgentStarted(turnId: string, subagentId: string, name: string, task: string)
    | SubAgentUpdated(turnId: string, subagentId: string, summary: string)
    | SubAgentFinished(turnId: string, subagentId: string, success: bool, summary: string)
    | ToolCallStarted(turnId: string, callId: string, toolName: string, action: ToolAction, arguments: Arguments)
    | ObservationAdded(turnId: string, observation: Observation)
    | ToolCallFinished(turnId: string, callId: string, success: bool)
    | NeedUserInput(turnId: string, question: string, pendingCallId: Option<string>, requestedTool: Option<string>,
                    requestedArguments: Option<Arguments>, pendingCalls: seq<ConfirmItem>)
    | ToolApprovalResolved(turnId: string, callId: string, approved: bool)
    | TurnCompleted(turnId: string)
    | TurnCancelled(turnId: string)
    | TurnFailed(turnId: string, reason: string)

  datatype TerminalKey = AwaitingInput(turn: string, callId: Option<string>, questionHash: nat) | Final(turn: string)

  /**
   Budgets, and what the model does not look inside of: JSON sizes, hashes, chart parsing,
   translations, and what `split_data_url_images` leaves of a user's text.
   */
  datatype Config = Config(
    maxMessages: nat, maxTextBytes: nat, maxFieldBytes: nat,
    cardBytes: Card -> nat, hash: string -> nat, isChart: ChartTest, resourceLabels: map<string, string>,
    failedText: string -> string, cancelledText: string, userText: string -> string)

  datatype State = State(
    messages: seq<Message>, currentTurn: Option<string>, dropped: nat,
    streamingId: Option<nat>, activeStatusId: Option<nat>, acpStatusId: Option<nat>,
    latestPlan: Option<PlanData>, planMessageId: Option<nat>, activeSubagents: seq<SubAgentData>,
    toolInputs: map<string, Arguments>, toolInputOrder: seq<string>, publicMcpIds: set<string>,
    terminalEvents: set<TerminalKey>, terminalOrder: seq<TerminalKey>, deferred: bool, nextId: nat)

  const EMPTY := State([], None, 0, None, None, None, None, None, [], map[], [], {}, {}, [], false, 0)

  // ----- looking messages up -----

  /** The first message with that id. */
  function Position(ms: seq<Message>, id: nat): (i: Option<nat>)
    ensures i.Some? ==> i.value < |ms| && ms[i.value].id == id
    ensures i.None? ==> forall k :: 0 <= k < |ms| ==> ms[k].id != id
  {
    if ms == [] then None
    else if ms[0].id == id then Some(0)
    else
      var rest := Position(ms[1..], id);
      if rest.Some? then Some(rest.value + 1) else None
  }

  function PositionOf(ms: seq<Message>, id: Option<nat>): (i: Option<nat>)
    ensures i.Some? ==> i.value < |ms| && id == Some(ms[i.value].id)
  {
    if id.Some? then Position(ms, id.value) else None
  }

  /** The last card message with that key. */
  function FindCard(ms: seq<Message>, key: CardKey): (i: Option<nat>)
    ensures i.Some? ==> i.value < |ms| && ms[i.value].variant.CardOf? && KeyOf(ms[i.value].variant.card) == key
  {
    if ms == [] then None
    else
      var m := ms[|ms| - 1];
      if m.variant.CardOf? && KeyOf(m.variant.card) == key then Some(|ms| - 1)
      else FindCard(ms[..|ms| - 1], key)
  }

  /** The first card message with that key. */
  function FindFirstCard(ms: seq<Message>, key: CardKey): (i: Option<nat>)
    ensures i.Some? ==> i.value < |ms| && ms[i.value].variant.CardOf? && KeyOf(ms[i.value].variant.card) == key
  {
    if ms == [] then None
    else if ms[0].variant.CardOf? && KeyOf(ms[0].variant.card) == key then Some(0)
    else
      var rest := FindFirstCard(ms[1..], key);
      if rest.Some? then Some(rest.value + 1) else None
  }

  function WithoutId(ms: seq<Message>, id: nat): seq<Message> {
    if ms == [] then []
    else if ms[0].id == id then WithoutId(ms[1..], id)
    else [ms[0]] + WithoutId(ms[1..], id)
  }

  /** Ids from `next` on and the given turn, in order. */
  function Stamp(ms: seq<Message>, turn: Option<string>, next: nat): (r: seq<Message>)
    ensures |r| == |ms|
  {
    seq(|ms|, i requires 0 <= i < |ms| => ms[i].(id := next + i, turn := turn))
  }

  function Splice(ms: seq<Message>, i: nat, instead: seq<Message>): seq<Message>
    requires i < |ms|
  {
    ms[..i] + instead + ms[i + 1..]
  }

  // ----- field bounds -----

  function BoundOption(s: Option<string>, max: nat): Option<string> {
    if s.Some? then Some(TruncateToRecent(s.value, max)) else None
  }

  function First<T>(s: seq<T>, n: nat): seq<T> {
    if |s| <= n then s else s[..n]
  }

  function BoundFiles(files: seq<FileStat>, max: nat): seq<FileStat> {
    if files == [] then []
    else [files[0].(path := TruncateToRecent(files[0].path, max))] + BoundFiles(files[1..], max)
  }

  function BoundTool(d: ToolCardData, max: nat): ToolCardData {
    d.(toolName := TruncateToRecent(d.toolName, max),
       targetId := BoundOption(d.targetId, max), targetLabel := BoundOption(d.targetLabel, max),
       inputSummary := TruncateToRecent(d.inputSummary, max), inputJson := TruncateToRecent(d.inputJson, max),
       summary := TruncateToRecent(d.summary, max), dataText := TruncateToRecent(d.dataText, max),
       fileChanges := BoundFiles(First(d.fileChanges, MAX_CARD_FILE_CHANGES), Min(max, MAX_CARD_ITEM_FIELD_BYTES)))
  }

  function BoundItems(items: seq<ConfirmItem>, max: nat): seq<ConfirmItem> {
    if items == [] then []
    else
      [items[0].(toolName := TruncateToRecent(items[0].toolName, max),
                 inputSummary := TruncateToRecent(items[0].inputSummary, max),
                 inputJson := TruncateToRecent(items[0].inputJson, max))] + BoundItems(items[1..], max)
  }

  function BoundConfirm(d: ConfirmData, max: nat): ConfirmData {
    d.(toolName := TruncateToRecent(d.toolName, max), inputSummary := TruncateToRecent(d.inputSummary, max),
       inputJson := TruncateToRecent(d.inputJson, max), question := TruncateToRecent(d.question, max),
       items := BoundItems(First(d.items, MAX_CARD_COLLECTION_ITEMS), Min(max, MAX_CARD_ITEM_FIELD_BYTES)))
  }

  function BoundOptions(options: seq<PermissionOption>, max: nat): seq<PermissionOption> {
    if options == [] then []
    else [options[0].(name := TruncateToRecent(options[0].name, max))] + BoundOptions(options[1..], max)
  }

  function BoundPermission(d: PermissionData, max: nat): PermissionData {
    d.(toolName := TruncateToRecent(d.toolName, max), summary := TruncateToRecent(d.summary, max),
       detailsJson := TruncateToRecent(d.detailsJson, max),
       selectedOptionName := TruncateToRecent(d.selectedOptionName, max),
       options := BoundOptions(First(d.options, MAX_CARD_COLLECTION_ITEMS), Min(max, MAX_CARD_ITEM_FIELD_BYTES)))
  }

  function BoundSubagent(d: SubAgentData, max: nat): SubAgentData {
    d.(name := TruncateToRecent(d.name, max), task := TruncateToRecent(d.task, max),
       summary := TruncateToRecent(d.summary, max))
  }

  function BoundSteps(steps: seq<PlanStep>, max: nat): seq<PlanStep> {
    if steps == [] then []
    else
      [steps[0].(title := TruncateToRecent(steps[0].title, max),
                 description := TruncateToRecent(steps[0].description, max),
                 risk := TruncateToRecent(steps[0].risk, max))] + BoundSteps(steps[1..], max)
  }

  function BoundPlan(d: PlanData, max: nat): PlanData {
    d.(goal := TruncateToRecent(d.goal, max),
       steps := BoundSteps(First(d.steps, MAX_CARD_COLLECTION_ITEMS), Min(max, MAX_CARD_ITEM_FIELD_BYTES)))
  }

  function BoundCard(card: Card, max: nat): Card {
    match card
    case ToolCard(d) => ToolCard(BoundTool(d, max))
    case ConfirmCard(d) => ConfirmCard(BoundConfirm(d, max))
    case PermissionCard(d) => PermissionCard(BoundPermission(d, max))
    case SubAgentCard(d) => SubAgentCard(BoundSubagent(d, max))
    case PlanCard(d) => PlanCard(BoundPlan(d, max))
    case CompactionCard(n, t) => CompactionCard(n, TruncateToRecent(t, max))
    case ChartCard(_) => card
  }

  function TruncateFields(m: Message, max: nat): Message {
    m.(content := if m.variant.Text? then TruncateToRecent(m.content, max) else m.content,
       reasoning := TruncateToRecent(m.reasoning, max),
       variant := match m.variant
                  case Text => Text
                  case Status(title, isDone) => Status(TruncateToRecent(title, max), isDone)
                  case CardOf(card) => CardOf(BoundCard(card, Min(max, MAX_CARD_FIELD_BYTES))))
  }

  function TruncateAll(ms: seq<Message>, max: nat): (r: seq<Message>)
    ensures |r| == |ms|
  {
    seq(|ms|, i requires 0 <= i < |ms| => TruncateFields(ms[i], max))
  }

  function CardLimit(cfg: Config): nat {
    Min(cfg.maxFieldBytes, MAX_CARD_FIELD_BYTES)
  }

  // ----- the budget -----

  function MessageBytes(m: Message, cfg: Config): nat {
    (if m.variant.CardOf? then cfg.cardBytes(m.variant.card) else Bytes(m.content))
    + Bytes(m.reasoning) + (if m.variant.Status? then Bytes(m.variant.title) else 0)
  }

  function TextBytes(ms: seq<Message>, cfg: Config): nat {
    if ms == [] then 0 else MessageBytes(ms[0], cfg) + TextBytes(ms[1..], cfg)
  }

  predicate OverBudget(ms: seq<Message>, cfg: Config) {
    |ms| > cfg.maxMessages || TextBytes(ms, cfg) > cfg.maxTextBytes
  }

  /** A call or subagent that runs, a request that waits for its answer. */
  predicate Unfinished(card: Card) {
    match card
    case ToolCard(d) => d.running
    case ConfirmCard(d) => d.status == Pending
    case PermissionCard(d) => d.status == Pending
    case SubAgentCard(d) => d.running
    case _ => false
  }

  predicate Protected(m: Message, streaming: Option<nat>, status: Option<nat>, acp: Option<nat>) {
    || streaming == Some(m.id) || status == Some(m.id) || acp == Some(m.id) || m.isStreaming
    || match m.variant
       case Text => false
       case Status(_, isDone) => !isDone
       case CardOf(card) => Unfinished(card)
  }

  predicate IsProtected(s: State, m: Message) {
    Protected(m, s.streamingId, s.activeStatusId, s.acpStatusId)
  }

  /** The first unprotected message, or the first of all. */
  function Victim(s: State): (i: nat)
    ensures s.messages != [] ==> i < |s.messages|
  {
    var i := FirstUnprotected(s, s.messages);
    if i < |s.messages| then i else 0
  }

  function FirstUnprotected(s: State, ms: seq<Message>): (i: nat)
    ensures i <= |ms|
    ensures forall k :: 0 <= k < i ==> IsProtected(s, ms[k])
    ensures i < |ms| ==> !IsProtected(s, ms[i])
  {
    if ms == [] || !IsProtected(s, ms[0]) then 0 else 1 + FirstUnprotected(s, ms[1..])
  }

  function Forget(id: Option<nat>, gone: nat): Option<nat> {
    if id == Some(gone) then None else id
  }

  function WithoutKey(order: seq<string>, key: string): seq<string> {
    if order == [] then []
    else if order[0] == key then WithoutKey(order[1..], key)
    else [order[0]] + WithoutKey(order[1..], key)
  }

  function RemoveToolInput(s: State, callId: string): State {
    s.(toolInputs := s.toolInputs - {callId}, toolInputOrder := WithoutKey(s.toolInputOrder, callId))
  }

  /** The state without message i and without the ids that named it. */
  function CutMessage(s: State, i: nat): State
    requires i < |s.messages|
  {
    var id := s.messages[i].id;
    s.(dropped := s.dropped + 1, messages := s.messages[..i] + s.messages[i + 1..],
       streamingId := Forget(s.streamingId, id), activeStatusId := Forget(s.activeStatusId, id),
       acpStatusId := Forget(s.acpStatusId, id))
  }

  function RemoveMessage(s: State, i: nat): State
    requires i < |s.messages|
  {
    var s1 := CutMessage(s, i);
    match s.messages[i].variant
    case CardOf(ToolCard(d)) => RemoveToolInput(s1, d.callId)
    case CardOf(ConfirmCard(d)) => s1.(publicMcpIds := s1.publicMcpIds - {d.callId})
    case _ => s1
  }

  function Evict(s: State, cfg: Config): State
    decreases |s.messages|
  {
    if s.messages == [] || !OverBudget(s.messages, cfg) then s
    else Evict(RemoveMessage(s, Victim(s)), cfg)
  }

  function EnforceBudget(s: State, cfg: Config): State {
    if s.deferred then s
    else Evict(s.(messages := TruncateAll(s.messages, cfg.maxFieldBytes)), cfg)
  }

  // ----- pushing, replacing, closing -----

  function Push(s: State, m: Message): State {
    s.(messages := s.messages + Stamp([m], s.currentTurn, s.nextId), nextId := s.nextId + 1)
  }

  function ReplaceCard(s: State, key: CardKey, card: Card): State {
    var i := FindCard(s.messages, key);
    if i.None? then s
    else s.(messages := s.messages[i.value := s.messages[i.value].(variant := CardOf(card))])
  }

  function ReplaceFirstCard(s: State, key: CardKey, card: Card): State {
    var i := FindFirstCard(s.messages, key);
    if i.None? then s
    else s.(messages := s.messages[i.value := s.messages[i.value].(variant := CardOf(card))])
  }

  function FinishStatus(s: State): State {
    if s.activeStatusId.None? then s
    else s.(activeStatusId := None, messages := WithoutId(s.messages, s.activeStatusId.value))
  }

  /** The messages a text becomes; the first one carries the reasoning. */
  function Finished(text: string, reasoning: Option<string>, cfg: Config): seq<Message> {
    var pieces := Pieces(text, cfg.isChart);
    var ms := seq(|pieces|, i requires 0 <= i < |pieces| => PieceMessage(pieces[i]));
    if reasoning.Some? && ms != [] then ms[0 := ms[0].(reasoning := reasoning.value)] else ms
  }

  function ReplaceBy(s: State, i: nat, ms: seq<Message>): State
    requires i < |s.messages|
  {
    s.(messages := Splice(s.messages, i, Stamp(ms, s.currentTurn, s.nextId)), nextId := s.nextId + |ms|)
  }

  function CloseSegment(s: State, cfg: Config): State {
    var i := PositionOf(s.messages, s.streamingId);
    var s1 := s.(streamingId := None);
    if i.None? then s1
    else
      var m := s.messages[i.value];
      ReplaceBy(s1, i.value, Finished(m.content, Some(m.reasoning), cfg))
  }

  // ----- assistant text -----

  /** The segment at `i` rewritten, or a new one opened. */
  function PutOrOpen(s: State, i: Option<nat>, m: Message): State
    requires i.Some? ==> i.value < |s.messages|
  {
    if i.Some? then s.(messages := s.messages[i.value := m])
    else Push(s, m).(streamingId := Some(s.nextId))
  }

  /** The message a text delta leaves: the segment with more text, or a new one. */
  function WithText(ms: seq<Message>, i: Option<nat>, delta: string, cfg: Config): Message
    requires i.Some? ==> i.value < |ms|
  {
    if i.Some? then ms[i.value].(content := AppendBounded(ms[i.value].content, delta, cfg.maxFieldBytes))
    else StreamingMessage(AppendBounded("", delta, cfg.maxFieldBytes), "")
  }

  function WithReasoning(ms: seq<Message>, i: Option<nat>, delta: string, cfg: Config): Message
    requires i.Some? ==> i.value < |ms|
  {
    if i.Some? then ms[i.value].(reasoning := AppendBounded(ms[i.value].reasoning, delta, cfg.maxFieldBytes))
    else StreamingMessage("", AppendBounded("", delta, cfg.maxFieldBytes))
  }

  function AppendDelta(s: State, delta: string, cfg: Config): State {
    var s1 := FinishStatus(s);
    var i := PositionOf(s1.messages, s1.streamingId);
    PutOrOpen(s1, i, WithText(s1.messages, i, delta, cfg))
  }

  /** The segment being written already has visible text. */
  predicate SegmentHasText(s: State) {
    var i := PositionOf(s.messages, s.streamingId);
    i.Some? && Trim(s.messages[i.value].content) != ""
  }

  function AppendReasoning(s: State, delta: string, cfg: Config): State {
    var s0 := FinishStatus(s);
    var s1 := if SegmentHasText(s0) then s0.(streamingId := None) else s0;
    var i := PositionOf(s1.messages, s1.streamingId);
    PutOrOpen(s1, i, WithReasoning(s1.messages, i, delta, cfg))
  }

  function FinalizeAssistant(s: State, text: string, reasoning: Option<string>, cfg: Config): State {
    var s1 := FinishStatus(s);
    var i := PositionOf(s1.messages, s1.streamingId);
    var s2 := s1.(streamingId := None);
    if i.Some? then
      var kept := if reasoning.Some? then reasoning.value else s1.messages[i.value].reasoning;
      ReplaceBy(s2, i.value, Finished(text, Some(kept), cfg))
    else
      var ms := Finished(text, reasoning, cfg);
      s2.(messages := s2.messages + Stamp(ms, s2.currentTurn, s2.nextId), nextId := s2.nextId + |ms|)
  }

  // ----- status and plan rows -----

  function UpsertStatus(s: State, title: string, isDone: bool): State {
    var i := PositionOf(s.messages, s.activeStatusId);
    if i.Some? then
      var m := s.messages[i.value].(variant := Status(title, isDone), isStreaming := !isDone);
      s.(messages := s.messages[i.value := m], activeStatusId := if isDone then None else s.activeStatusId)
    else
      Push(s, StatusMessage(title, isDone)).(activeStatusId := if isDone then s.activeStatusId else Some(s.nextId))
  }

  function UpsertPlan(s: State, plan: PlanData): State {
    var s1 := s.(latestPlan := Some(plan));
    var i := PositionOf(s1.messages, s1.planMessageId);
    if i.Some? then
      s1.(messages := s1.messages[i.value := s1.messages[i.value].(variant := CardOf(PlanCard(plan)))])
    else
      Push(s1, CardMessage(PlanCard(plan))).(planMessageId := Some(s1.nextId))
  }

  // ----- tool cards -----

  function CacheToolInput(s: State, callId: string, arguments: Arguments): State {
    var s1 := RemoveToolInput(s, callId);
    if arguments.bytes > MAX_CACHED_TOOL_INPUT_BYTES then s1
    else TrimToolInputs(s1.(toolInputs := s1.toolInputs[callId := arguments],
                            toolInputOrder := s1.toolInputOrder + [callId]))
  }

  function TrimToolInputs(s: State): State
    decreases |s.toolInputOrder|
  {
    if |s.toolInputOrder| <= MAX_CACHED_TOOL_INPUTS then s
    else TrimToolInputs(s.(toolInputs := s.toolInputs - {s.toolInputOrder[0]},
                           toolInputOrder := s.toolInputOrder[1..]))
  }

  function PushToolCall(s: State, callId: string, toolName: string, action: ToolAction, arguments: Arguments,
                        cfg: Config): State
  {
    var s1 := CacheToolInput(CloseSegment(FinishStatus(s), cfg), callId, arguments);
    var d := ToolCardData(callId, toolName, action, None, None, arguments.summary, arguments.json,
                          true, None, "", "", [], None);
    Push(s1, CardMessage(ToolCard(BoundTool(d, CardLimit(cfg)))))
  }

  function DataLimit(toolName: string): nat {
    if toolName == "terminal_exec" || toolName == "terminal.exec" then MAX_TERMINAL_EXEC_DATA_CHARS
    else MAX_DATA_CHARS
  }

  /** What the observation puts on its card. */
  function Observed(d: ToolCardData, obs: Observation, cfg: Config): ToolCardData {
    var files := First(obs.fileChanges, MAX_CARD_FILE_CHANGES);
    var target := if files != [] then Some(files[0].path)
                  else if obs.target.Some? then obs.target else obs.resourceId;
    var shown := if target.None? then None
                 else if target.value in cfg.resourceLabels then Some(cfg.resourceLabels[target.value])
                 else target;
    d.(targetId := target, targetLabel := shown, summary := obs.summary,
       dataText := First(obs.dataText, DataLimit(obs.toolName)), fileChanges := files,
       durationMs := if obs.durationMs > 0 then Some(obs.durationMs) else None,
       success := Some(obs.success),
       inputSummary := if obs.arguments.Some? then obs.arguments.value.summary else d.inputSummary,
       inputJson := if obs.arguments.Some? then obs.arguments.value.json else d.inputJson)
  }

  function ApplyObservation(s: State, obs: Observation, cfg: Config): State {
    var i := FindCard(s.messages, ToolKey(obs.callId));
    if i.Some? then
      ReplaceCard(s, ToolKey(obs.callId), ToolCard(Observed(s.messages[i.value].variant.card.tool, obs, cfg)))
    else
      var d := ToolCardData(obs.callId, obs.toolName, obs.action, None, None, "", "", false, None, "", "", [], None);
      Push(s, CardMessage(ToolCard(Observed(d, obs, cfg))))
  }

  function FinishToolCall(s: State, callId: string, success: bool): State {
    var s1 := RemoveToolInput(s, callId);
    var i := FindCard(s1.messages, ToolKey(callId));
    if i.None? then s1
    else ReplaceCard(s1, ToolKey(callId),
                     ToolCard(s1.messages[i.value].variant.card.tool.(running := false, success := Some(success))))
  }

  // ----- confirmations and permissions -----

  function ConfirmInput(s: State, callId: Option<string>, arguments: Option<Arguments>): (string, string) {
    if arguments.Some? && arguments.value.json != "" then (arguments.value.summary, arguments.value.json)
    else
      var i := if callId.Some? then FindCard(s.messages, ToolKey(callId.value)) else None;
      if i.None? then ("", "")
      else
        var d := s.messages[i.value].variant.card.tool;
        (d.inputSummary, d.inputJson)
  }

  function PushConfirm(s: State, question: string, callId: Option<string>, toolName: Option<string>,
                       arguments: Option<Arguments>, items: seq<ConfirmItem>, cfg: Config): State
  {
    var s1 := FinishStatus(s);
    var input := ConfirmInput(s1, callId, arguments);
    var d := ConfirmData(if callId.Some? then callId.value else "",
                         if toolName.Some? then toolName.value else "unknown",
                         items, input.0, input.1, question, Pending);
    EnforceBudget(Push(s1, CardMessage(ConfirmCard(BoundConfirm(d, CardLimit(cfg))))), cfg)
  }

  function ResolveConfirm(s: State, callId: string, approved: bool, cfg: Config): State {
    var i := FindCard(s.messages, ConfirmKey(callId));
    if i.None? then s
    else
      var d := s.messages[i.value].variant.card.confirm.(status := if approved then Approved else Rejected);
      EnforceBudget(ReplaceCard(s, ConfirmKey(callId), ConfirmCard(d)), cfg)
  }

  predicate HasPendingConfirm(s: State, callId: string) {
    var i := FindCard(s.messages, ConfirmKey(callId));
    i.Some? && s.messages[i.value].variant.card.confirm.status == Pending
  }

  /** The card of an approval request, however it was filled in. */
  function ApprovalCard(d: ConfirmData, cfg: Config): Card {
    ConfirmCard(BoundConfirm(d.(items := [], status := Pending), CardLimit(cfg)))
  }

  function PushMcpApproval(s: State, d: ConfirmData, cfg: Config): State {
    if HasPendingConfirm(s, d.callId) then s
    else
      var s1 := CloseSegment(FinishStatus(s.(publicMcpIds := s.publicMcpIds + {d.callId})), cfg);
      EnforceBudget(Push(s1, CardMessage(ApprovalCard(d, cfg))), cfg)
  }

  /** Permission cards, unlike all others, are looked up from the front. */
  predicate HasPendingPermission(s: State, requestId: string) {
    var i := FindFirstCard(s.messages, PermissionKey(requestId));
    i.Some? && s.messages[i.value].variant.card.permission.status == Pending
  }

  function RequestCard(d: PermissionData, cfg: Config): Card {
    PermissionCard(BoundPermission(d.(status := Pending, selectedOptionName := ""), CardLimit(cfg)))
  }

  function PushPermission(s: State, d: PermissionData, cfg: Config): State {
    if HasPendingPermission(s, d.requestId) then s
    else
      var s1 := CloseSegment(FinishStatus(s), cfg);
      EnforceBudget(Push(s1, CardMessage(RequestCard(d, cfg))), cfg)
  }

  function DecidePermission(s: State, requestId: string, status: Decision, optionName: string, cfg: Config): State {
    var i := FindFirstCard(s.messages, PermissionKey(requestId));
    if i.None? then s
    else
      var d := s.messages[i.value].variant.card.permission.(status := status, selectedOptionName := optionName);
      EnforceBudget(ReplaceFirstCard(s, PermissionKey(requestId), PermissionCard(d)), cfg)
  }

  function ResolvePermission(s: State, requestId: string, option: PermissionOption, cfg: Config): State {
    DecidePermission(s, requestId, if "reject" <= option.kind then Rejected else Approved, option.name, cfg)
  }

  function CancelPermission(s: State, requestId: string, cfg: Config): State {
    DecidePermission(s, requestId, Cancelled, "", cfg)
  }

  // ----- subagents -----

  function FindSubagent(active: seq<SubAgentData>, id: string): (i: Option<nat>)
    ensures i.Some? ==> i.value < |active|
  {
    if active == [] then None
    else if active[0].subagentId == id then Some(0)
    else
      var rest := FindSubagent(active[1..], id);
      if rest.Some? then Some(rest.value + 1) else None
  }

  function FirstFinished(active: seq<SubAgentData>): (i: nat)
    ensures i <= |active|
  {
    if active == [] || !active[0].running then 0 else 1 + FirstFinished(active[1..])
  }

  function TrimSubagents(active: seq<SubAgentData>): seq<SubAgentData>
    decreases |active|
  {
    if |active| <= MAX_ACTIVE_SUBAGENTS then active
    else
      var i := FirstFinished(active);
      var k := if i < |active| then i else 0;
      TrimSubagents(active[..k] + active[k + 1..])
  }

  function UpsertSubagent(s: State, data: SubAgentData, cfg: Config): State {
    var d := BoundSubagent(data, CardLimit(cfg));
    var i := FindSubagent(s.activeSubagents, d.subagentId);
    s.(activeSubagents := TrimSubagents(if i.Some? then s.activeSubagents[i.value := d]
                                        else s.activeSubagents + [d]))
  }

  function PushSubagent(s: State, id: string, name: string, task: string, cfg: Config): State {
    var s1 := CloseSegment(FinishStatus(s), cfg);
    var d := BoundSubagent(SubAgentData(id, name, task, true, None, ""), CardLimit(cfg));
    Push(UpsertSubagent(s1, d, cfg), CardMessage(SubAgentCard(d)))
  }

  /** The card's data, or the panel's when the card is gone. */
  function LookupSubagent(s: State, id: string): Option<SubAgentData> {
    var i := FindCard(s.messages, SubAgentKey(id));
    if i.Some? then Some(s.messages[i.value].variant.card.subagent)
    else
      var k := FindSubagent(s.activeSubagents, id);
      if k.Some? then Some(s.activeSubagents[k.value]) else None
  }

  function UpdateSubagent(s: State, id: string, summary: string, cfg: Config): State {
    var d := LookupSubagent(s, id);
    if d.None? then s
    else
      var next := d.value.(summary := summary);
      ReplaceCard(UpsertSubagent(s, next, cfg), SubAgentKey(id), SubAgentCard(next))
  }

  function FinishSubagent(s: State, id: string, success: bool, summary: string, cfg: Config): State {
    var d := LookupSubagent(s, id);
    if d.None? then s
    else
      var next := d.value.(running := false, success := Some(success),
                         summary := if summary != "" then summary else d.value.summary);
      ReplaceCard(UpsertSubagent(s, next, cfg), SubAgentKey(id), SubAgentCard(next))
  }

  // ----- ACP status -----

  function WithAcpStatus(s: State, title: string): State {
    var i := PositionOf(s.messages, s.acpStatusId);
    if i.Some? then
      s.(messages := s.messages[i.value := s.messages[i.value].(variant := Status(title, false), isStreaming := true)])
    else
      s.(messages := s.messages + Stamp([StatusMessage(title, false)], None, s.nextId),
         acpStatusId := Some(s.nextId), nextId := s.nextId + 1)
  }

  function SetAcpStatus(s: State, title: string, cfg: Config): State {
    EnforceBudget(WithAcpStatus(s, title), cfg)
  }

  /** The status row becomes the error, in place; without a row the error is added. */
  function WithAcpError(s: State, text: string): State {
    var i := PositionOf(s.messages, s.acpStatusId);
    var s1 := s.(acpStatusId := None);
    if i.Some? then
      s1.(messages := s1.messages[i.value := SystemMessage(text).(id := s1.messages[i.value].id)])
    else
      s1.(messages := s1.messages + Stamp([SystemMessage(text)], None, s1.nextId), nextId := s1.nextId + 1)
  }

  function SetAcpError(s: State, text: string, cfg: Config): State {
    EnforceBudget(WithAcpError(FinishStatus(s), text), cfg)
  }

  function ClearAcpStatus(s: State): State {
    if s.acpStatusId.None? then s
    else s.(acpStatusId := None, messages := WithoutId(s.messages, s.acpStatusId.value))
  }

  // ----- events -----

  function TerminalKeyOf(e: Event, cfg: Config): Option<TerminalKey> {
    match e
    case NeedUserInput(turn, question, callId, _, _, _) => Some(AwaitingInput(turn, callId, cfg.hash(question)))
    case TurnCompleted(turn) => Some(Final(turn))
    case TurnCancelled(turn) => Some(Final(turn))
    case TurnFailed(turn, _) => Some(Final(turn))
    case _ => None
  }

  function TrimTerminals(s: State): State
    decreases |s.terminalOrder|
  {
    if |s.terminalOrder| <= MAX_TERMINAL_EVENTS then s
    else TrimTerminals(s.(terminalEvents := s.terminalEvents - {s.terminalOrder[0]},
                          terminalOrder := s.terminalOrder[1..]))
  }

  /** The state after recording a key that is new. */
  function RecordTerminal(s: State, key: TerminalKey): State {
    if key in s.terminalEvents then s
    else TrimTerminals(s.(terminalEvents := s.terminalEvents + {key}, terminalOrder := s.terminalOrder + [key]))
  }

  function EnterTurn(s: State, turn: string): State {
    s.(currentTurn := Some(turn), planMessageId := if s.currentTurn == Some(turn) then s.planMessageId else None)
  }

  function Reduce(s: State, e: Event, cfg: Config): State {
    match e
    case TurnStarted(_) => s.(streamingId := None, activeStatusId := None)
    case AssistantMessageDelta(_, delta) => AppendDelta(s, delta, cfg)
    case ReasoningDelta(_, delta) => AppendReasoning(s, delta, cfg)
    case AssistantMessage(_, text, reasoning) => FinalizeAssistant(s, text, reasoning, cfg)
    case UserMessage(_, text) => EnforceBudget(Push(s, NewMessage(UserRole, cfg.userText(text), Text, false)), cfg)
    case StatusChanged(_, title, isDone) => UpsertStatus(s, title, isDone)
    case PlanUpdated(_, plan) => UpsertPlan(s, plan)
    case SubAgentStarted(_, id, name, task) => PushSubagent(s, id, name, task, cfg)
    case SubAgentUpdated(_, id, summary) => UpdateSubagent(s, id, summary, cfg)
    case SubAgentFinished(_, id, success, summary) => FinishSubagent(s, id, success, summary, cfg)
    case ToolCallStarted(_, callId, name, action, arguments) => PushToolCall(s, callId, name, action, arguments, cfg)
    case ObservationAdded(_, obs) => ApplyObservation(s, obs, cfg)
    case ToolCallFinished(_, callId, success) => FinishToolCall(s, callId, success)
    case NeedUserInput(_, question, callId, name, arguments, items) =>
      PushConfirm(s, question, callId, name, arguments, items, cfg)
    case ToolApprovalResolved(_, callId, approved) => ResolveConfirm(s, callId, approved, cfg)
    case TurnCompleted(_) => CloseSegment(FinishStatus(s), cfg)
    case TurnCancelled(_) => Push(CloseSegment(FinishStatus(s), cfg), SystemMessage(cfg.cancelledText))
    case TurnFailed(_, reason) => Push(FinishStatus(s).(streamingId := None), SystemMessage(cfg.failedText(reason)))
  }

  /** The event is a repetition of a recorded one. */
  predicate Repeats(s: State, e: Event, cfg: Config) {
    var key := TerminalKeyOf(e, cfg);
    key.Some? && key.value in s.terminalEvents
  }

  function Recorded(s: State, e: Event, cfg: Config): State {
    var key := TerminalKeyOf(e, cfg);
    if key.Some? then RecordTerminal(s, key.value) else s
  }

  function Apply(s: State, e: Event, cfg: Config): State {
    var s1 := EnterTurn(s, e.turnId);
    if Repeats(s1, e, cfg) then s1 else EnforceBudget(Reduce(Recorded(s1, e, cfg), e, cfg), cfg)
  }

  /** A failed connection ends a turn without being an event of its stream. */
  function FailAcp(s: State, e: Event, text: string, cfg: Config): State {
    if Repeats(s, e, cfg) then s else SetAcpError(Recorded(s, e, cfg).(streamingId := None), text, cfg)
  }

  // ----- everything that changes a transcript -----

  datatype Action =
    | ApplyEvent(event: Event)
    | PushSystem(text: string)
    | PushUser(text: string)
    | PushCompaction(text: string, originalItems: nat)
    | ApproveMcp(confirm: ConfirmData)
    | AskPermission(permission: PermissionData)
    | AnswerPermission(requestId: string, option: PermissionOption)
    | WithdrawPermission(requestId: string)
    | AcpStatus(title: string)
    | AcpError(text: string)
    | AcpFailure(event: Event, text: string)
    | AcpStatusOver
    | Defer(on: bool)
    | Flush
    | Clear

  function Forgotten(s: State): State {
    s.(toolInputs := map[], toolInputOrder := [], publicMcpIds := {}, terminalEvents := {}, terminalOrder := [])
  }

  function Cleared(s: State): State {
    Forgotten(s).(messages := [], currentTurn := None, dropped := 0, streamingId := None, activeStatusId := None,
                  acpStatusId := None, latestPlan := None, planMessageId := None, activeSubagents := [])
  }

  function Act(s: State, a: Action, cfg: Config): State {
    match a
    case ApplyEvent(e) => Apply(s, e, cfg)
    case PushSystem(text) => EnforceBudget(Push(s, SystemMessage(text)), cfg)
    case PushUser(text) => EnforceBudget(Push(s, NewMessage(UserRole, text, Text, false)), cfg)
    case PushCompaction(text, n) => EnforceBudget(Push(s, CardMessage(CompactionCard(n, text))), cfg)
    case ApproveMcp(d) => PushMcpApproval(s, d, cfg)
    case AskPermission(d) => PushPermission(s, d, cfg)
    case AnswerPermission(id, option) => ResolvePermission(s, id, option, cfg)
    case WithdrawPermission(id) => CancelPermission(s, id, cfg)
    case AcpStatus(title) => SetAcpStatus(s, title, cfg)
    case AcpError(text) => SetAcpError(s, text, cfg)
    case AcpFailure(e, text) => FailAcp(s, e, text, cfg)
    case AcpStatusOver => ClearAcpStatus(s)
    case Defer(on) => s.(deferred := on)
    case Flush => if s.deferred then EnforceBudget(s.(deferred := false), cfg) else s
    case Clear => Cleared(s)
  }

  function Run(actions: seq<Action>, cfg: Config): State {
    if actions == [] then EMPTY else Act(Run(actions[..|actions| - 1], cfg), actions[|actions| - 1], cfg)
  }
}
